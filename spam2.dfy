/**
 * spam2.py: the MD India cashless letter read from its first page's text. Its
 * `extract_table_data`, its token patterns and its Letter Type test are mdindia_approval.py's,
 * word for word, and are taken from that model; what is its own is the record's thirteen keys
 * (a "Reason" in place of the authorization details and remarks) and the reason, read from the
 * camelot table when there is one and otherwise by a chain of three text patterns.
 */
module Spam2 {
  import opened Common
  import opened Text
  import opened Regex
  import opened Stores
  import M = MdIndiaApproval

  // ---------------------------------------------------------------- extract_reason_from_pdf, text part

  /** `\.?` */
  const OptDot: Item := Rep(Chars("."), 0, AtMost(1), true)

  /** `(.+?)` under DOTALL. */
  const Lazy: Item := Cap(1, AnyChar, 1, Unbounded, false)

  /** `Sr\.?No\.?\s*Particular\(s\)\s*1\s*(.+?)(?:Thanking|Authorized|$)`, IGNORECASE and DOTALL. */
  const ParticularPattern: Pattern := CI([
    Lit("Sr"), OptDot, Lit("No"), OptDot, Ws0, Lit("Particular(s)"), Ws0, Lit("1"), Ws0, Lazy,
    Alt([Lit("Thanking"), Lit("Authorized"), LineEnd])])

  /** `Sr\s*No\.?\s*1\s*Reason\(s\)\s*(.+?)(?:Explanation|As per|$)`, IGNORECASE and DOTALL. */
  const ReasonPattern: Pattern := CI([
    Lit("Sr"), Ws0, Lit("No"), OptDot, Ws0, Lit("1"), Ws0, Lit("Reason(s)"), Ws0, Lazy,
    Alt([Lit("Explanation"), Lit("As per"), LineEnd])])

  /** `following reasons:\s*(.+?)(?:Explanation|As per|Note|$)`, IGNORECASE and DOTALL. */
  const DenialPattern: Pattern := CI([
    Lit("following reasons:"), Ws0, Lazy, Alt([Lit("Explanation"), Lit("As per"), Lit("Note"), LineEnd])])

  /** `[pattern1, pattern2]` */
  const TablePatterns: seq<Pattern> := [ParticularPattern, ReasonPattern]

  /** `' '.join(match.group(1).strip().split())` of the first of `ps[i..]` that matches. */
  function FirstCollapsed(ps: seq<Pattern>, text: string, i: nat): Option<string>
    requires i <= |ps|
    decreases |ps| - i
  {
    if i == |ps| then None
    else
      var m := Search(ps[i], text);
      if m.Some? then Some(Collapse(Strip(GroupText(m.value, text, 1)))) else FirstCollapsed(ps, text, i + 1)
  }

  /** The pdfplumber part of `extract_reason_from_pdf`, once the page's text is known. */
  function TextReason(text: string): string
  {
    var r := FirstCollapsed(TablePatterns, text, 0);
    if r.Some? then r.value
    else
      var d := Search(DenialPattern, text);
      if d.Some? then Strip(GroupText(d.value, text, 1)) else "null"
  }

  method ExtractTextReason(text: string) returns (r: string)
    ensures r == TextReason(text)
  {
    var i := 0;
    while i < |TablePatterns|
      invariant 0 <= i <= |TablePatterns|
      invariant FirstCollapsed(TablePatterns, text, i) == FirstCollapsed(TablePatterns, text, 0)
    {
      var m := Search(TablePatterns[i], text);
      if m.Some? {
        var reason := Strip(GroupText(m.value, text, 1));
        return Collapse(reason);
      }
      i := i + 1;
    }
    var d := Search(DenialPattern, text);
    if d.Some? {
      return Strip(GroupText(d.value, text, 1));
    }
    return "null";
  }

  /**
   * The patterns are tried in order: the Particular(s) table, then the Reason(s) table, each
   * whitespace-collapsed, then the "following reasons:" text, stripped only, and otherwise "null".
   */
  lemma TextReasonCases(text: string)
    ensures Finds(ParticularPattern, text) ==>
              TextReason(text) == Collapse(Strip(GroupText(Search(ParticularPattern, text).value, text, 1)))
    ensures !Finds(ParticularPattern, text) && Finds(ReasonPattern, text) ==>
              TextReason(text) == Collapse(Strip(GroupText(Search(ReasonPattern, text).value, text, 1)))
    ensures !Finds(ParticularPattern, text) && !Finds(ReasonPattern, text) && Finds(DenialPattern, text) ==>
              TextReason(text) == Strip(GroupText(Search(DenialPattern, text).value, text, 1))
    ensures !Finds(ParticularPattern, text) && !Finds(ReasonPattern, text) && !Finds(DenialPattern, text) ==>
              TextReason(text) == "null"
    ensures Finds(ParticularPattern, text) || Finds(ReasonPattern, text) ==>
              SingleSpaced(TextReason(text)) && IsStripped(TextReason(text))
  {
    assert TablePatterns[0] == ParticularPattern && TablePatterns[1] == ReasonPattern;
    assert FirstCollapsed(TablePatterns, text, 2) == None;
    if Finds(ParticularPattern, text) {
      CollapseSingle(Strip(GroupText(Search(ParticularPattern, text).value, text, 1)));
    } else if Finds(ReasonPattern, text) {
      assert FirstCollapsed(TablePatterns, text, 0) == FirstCollapsed(TablePatterns, text, 1);
      CollapseSingle(Strip(GroupText(Search(ReasonPattern, text).value, text, 1)));
    } else {
      assert FirstCollapsed(TablePatterns, text, 0) == FirstCollapsed(TablePatterns, text, 1);
    }
  }

  /**
   * `extract_reason_from_pdf(pdf_path)`: the camelot table's reason when it has a row "1"
   * (`camelot`, read by a library outside this model), and otherwise the text's.
   */
  function ReasonOf(camelot: Option<string>, text: string): string
  {
    if camelot.Some? then camelot.value else TextReason(text)
  }

  // ---------------------------------------------------------------- extract_info_from_pdf

  /** The keys stored after the table, and "Hospital Address". */
  const LateKeys: seq<string> := ["Claim Number", "Hospital Address", "Rohini ID", "Letter Type", "MD ID No", "Reason"]

  /** The keys of `extracted_data`: the table's and the late ones. */
  const InfoKeys: seq<string> := M.TableKeys + LateKeys

  /** The initial `extracted_data`: "null" everywhere. */
  const Defaults: map<string, string> := map k | k in InfoKeys :: "null"

  /** The defaults hold every key of the record, "Hospital Address" among them. */
  lemma DefaultsIs()
    ensures Defaults.Keys == set k | k in InfoKeys
    ensures "Hospital Address" in Defaults
  {
    assert "Hospital Address" in LateKeys;
  }

  /** The late keys are not table keys. */
  lemma LateKeysNotTableKeys()
    ensures forall k :: k in LateKeys ==> k !in M.TableKeys
  {
  }

  /** The record once "Hospital Address" is set and the table merged: `extracted_data.update(table_data)`. */
  function Started(address: string, table: map<string, string>): map<string, string>
  {
    Defaults["Hospital Address" := address] + table
  }

  /** What the searches after the table found. */
  datatype Late = Late(claim: Option<string>, cashless: bool, mdId: Option<string>, rohini: Option<string>, reason: string)

  /** The late searches in the page's text; the reason is `extract_reason_from_pdf`'s. */
  function LateIn(t: string, camelot: Option<string>): Late
  {
    Late(M.TokenOf(M.ClaimPattern, t), Finds(M.CashlessPattern, t), M.TokenOf(M.MdIdPattern, t), M.TokenOf(M.RohiniPattern, t),
         ReasonOf(camelot, t))
  }

  /** The stores after the table. */
  function Completed(d: map<string, string>, l: Late): map<string, string>
  {
    var d1 := StoreIf(d, "Claim Number", l.claim);
    var d2 := if l.cashless then d1["Letter Type" := "Approval"] else d1;
    var d3 := StoreIf(d2, "MD ID No", l.mdId);
    var d4 := StoreIf(d3, "Rohini ID", l.rohini);
    d4["Reason" := l.reason]
  }

  /**
   * `extract_info_from_pdf` once the page's text (None when the page has none), the address
   * layout and the camelot reason are known. Without text `extract_table_data` raises, and the
   * `except` keeps the defaults and the address.
   */
  function Info(text: Option<string>, address: string, camelot: Option<string>): map<string, string>
  {
    if text.None? then Defaults["Hospital Address" := address]
    else Completed(Started(address, M.TableData(text.value)), LateIn(text.value, camelot))
  }

  /** One `match = re.search(...); if match: extracted_data[key] = match.group(1).strip()`. */
  method StoreToken(d: map<string, string>, key: string, p: Pattern, t: string) returns (r: map<string, string>)
    ensures r == StoreIf(d, key, M.TokenOf(p, t))
  {
    r := d;
    var m := Search(p, t);
    if m.Some? {
      r := r[key := Strip(GroupText(m.value, t, 1))];
    }
  }

  method ExtractInfo(text: Option<string>, address: string, camelot: Option<string>) returns (data: map<string, string>)
    ensures data == Info(text, address, camelot)
  {
    data := Defaults;
    data := data["Hospital Address" := address];
    if text.None? {
      return;
    }
    var t := text.value;
    data := data + M.TableData(t);
    data := StoreToken(data, "Claim Number", M.ClaimPattern, t);
    var m := Search(M.CashlessPattern, t);
    if m.Some? {
      data := data["Letter Type" := "Approval"];
    }
    data := StoreToken(data, "MD ID No", M.MdIdPattern, t);
    data := StoreToken(data, "Rohini ID", M.RohiniPattern, t);
    var reason := camelot;
    if reason.None? {
      var r := ExtractTextReason(t);
      reason := Some(r);
    }
    data := data["Reason" := reason.value];
  }

  // ---------------------------------------------------------------- what the record holds

  /** The merged table keeps the record's keys; a table key holds the table's value when it has one, else "null". */
  lemma StartedIs(address: string, table: map<string, string>)
    requires forall k :: k in table ==> k in M.TableKeys
    ensures Started(address, table).Keys == Defaults.Keys
    ensures "Hospital Address" in Started(address, table) && Started(address, table)["Hospital Address"] == address
    ensures forall k :: k in M.TableKeys ==> k in Started(address, table) && Started(address, table)[k] == OrElse(if k in table then Some(table[k]) else None, "null")
    ensures forall k :: k in LateKeys && k != "Hospital Address" ==> k in Started(address, table) && Started(address, table)[k] == "null"
  {
    LateKeysNotTableKeys();
  }

  /** The keys the stores after the table write. */
  predicate IsLateKey(k: string)
  {
    k == "Claim Number" || k == "Letter Type" || k == "MD ID No" || k == "Rohini ID" || k == "Reason"
  }

  /** The stores after the table add no key. */
  lemma CompletedKeys(d: map<string, string>, l: Late)
    requires "Claim Number" in d && "Letter Type" in d && "MD ID No" in d && "Rohini ID" in d && "Reason" in d
    ensures Completed(d, l).Keys == d.Keys
  {
    StoreIfKeys(d, "Claim Number", l.claim);
    var d1 := StoreIf(d, "Claim Number", l.claim);
    var d2 := if l.cashless then d1["Letter Type" := "Approval"] else d1;
    assert d2.Keys == d.Keys;
    StoreIfKeys(d2, "MD ID No", l.mdId);
    var d3 := StoreIf(d2, "MD ID No", l.mdId);
    StoreIfKeys(d3, "Rohini ID", l.rohini);
    var d4 := StoreIf(d3, "Rohini ID", l.rohini);
    assert Completed(d, l) == d4["Reason" := l.reason];
  }

  /** A key the stores after the table do not write keeps its value. */
  lemma CompletedOther(d: map<string, string>, l: Late, k: string)
    requires k in d && !IsLateKey(k)
    ensures k in Completed(d, l) && Completed(d, l)[k] == d[k]
  {
    var d1 := StoreIf(d, "Claim Number", l.claim);
    StoreIfIs(d, "Claim Number", l.claim);
    var d2 := if l.cashless then d1["Letter Type" := "Approval"] else d1;
    var d3 := StoreIf(d2, "MD ID No", l.mdId);
    StoreIfIs(d2, "MD ID No", l.mdId);
    var d4 := StoreIf(d3, "Rohini ID", l.rohini);
    StoreIfIs(d3, "Rohini ID", l.rohini);
    assert Completed(d, l) == d4["Reason" := l.reason];
  }

  /** Each late key holds what its search found, or its earlier value when the search found nothing. */
  lemma CompletedLate(d: map<string, string>, l: Late)
    requires "Claim Number" in d && "Letter Type" in d && "MD ID No" in d && "Rohini ID" in d && "Reason" in d
    ensures var r := Completed(d, l);
            "Claim Number" in r && "Letter Type" in r && "MD ID No" in r && "Rohini ID" in r && "Reason" in r &&
            r["Claim Number"] == OrElse(l.claim, d["Claim Number"]) &&
            r["Letter Type"] == (if l.cashless then "Approval" else d["Letter Type"]) &&
            r["MD ID No"] == OrElse(l.mdId, d["MD ID No"]) &&
            r["Rohini ID"] == OrElse(l.rohini, d["Rohini ID"]) &&
            r["Reason"] == l.reason
  {
    var d1 := StoreIf(d, "Claim Number", l.claim);
    StoreIfIs(d, "Claim Number", l.claim);
    var d2 := if l.cashless then d1["Letter Type" := "Approval"] else d1;
    var d3 := StoreIf(d2, "MD ID No", l.mdId);
    StoreIfIs(d2, "MD ID No", l.mdId);
    var d4 := StoreIf(d3, "Rohini ID", l.rohini);
    StoreIfIs(d3, "Rohini ID", l.rohini);
    assert Completed(d, l) == d4["Reason" := l.reason];
  }

  /** The record always has the thirteen keys, and "Hospital Address" is the layout's. */
  lemma InfoKeysAddress(text: Option<string>, address: string, camelot: Option<string>)
    ensures Info(text, address, camelot).Keys == set k | k in InfoKeys
    ensures "Hospital Address" in Info(text, address, camelot) && Info(text, address, camelot)["Hospital Address"] == address
  {
    DefaultsIs();
    if text.Some? {
      var table := M.TableData(text.value);
      var l := LateIn(text.value, camelot);
      M.TableDataIs(text.value);
      var d := Started(address, table);
      StartedIs(address, table);
      StartedLate(address, table);
      CompletedKeys(d, l);
      CompletedOther(d, l, "Hospital Address");
      assert Info(text, address, camelot) == Completed(d, l);
    }
  }

  /**
   * A table key holds its pattern's stripped group when the text has one and the pattern matched,
   * and stays "null" otherwise: the merge overwrites only the defaults of matched patterns.
   */
  lemma InfoTable(text: Option<string>, address: string, camelot: Option<string>)
    ensures forall j :: 0 <= j < |M.TableKeys| ==>
              M.TableKeys[j] in Info(text, address, camelot) &&
              Info(text, address, camelot)[M.TableKeys[j]] ==
              (if text.Some? && Finds(M.TablePatterns[j], text.value)
               then Strip(GroupText(Search(M.TablePatterns[j], text.value).value, text.value, 1)) else "null")
  {
    if text.Some? {
      var t := text.value;
      M.TableDataIs(t);
      CompletedTable(address, M.TableData(t), LateIn(t, camelot));
    } else {
      DefaultsIs();
      assert forall j :: 0 <= j < |M.TableKeys| ==> M.TableKeys[j] in InfoKeys;
    }
  }

  /** After the merge and the late stores a table key holds the table's value, or "null" when the table has none. */
  lemma CompletedTable(address: string, table: map<string, string>, l: Late)
    requires forall k :: k in table ==> k in M.TableKeys
    ensures forall k :: k in M.TableKeys ==>
              k in Completed(Started(address, table), l) &&
              Completed(Started(address, table), l)[k] == (if k in table then table[k] else "null")
  {
    var d := Started(address, table);
    StartedIs(address, table);
    LateKeysNotTableKeys();
    forall k | k in M.TableKeys
      ensures k in Completed(d, l) && Completed(d, l)[k] == d[k]
    {
      CompletedOther(d, l, k);
    }
  }

  /** Without text the record is the defaults with the layout's address. */
  lemma InfoNoText(address: string, camelot: Option<string>)
    ensures forall k :: k in LateKeys && k != "Hospital Address" ==>
              k in Info(None, address, camelot) && Info(None, address, camelot)[k] == "null"
  {
  }

  /** In the started record the late keys are still "null". */
  lemma StartedLate(address: string, table: map<string, string>)
    requires forall k :: k in table ==> k in M.TableKeys
    ensures var d := Started(address, table);
            "Claim Number" in d && "Letter Type" in d && "MD ID No" in d && "Rohini ID" in d && "Reason" in d &&
            d["Claim Number"] == "null" && d["Letter Type"] == "null" && d["MD ID No"] == "null" && d["Rohini ID"] == "null"
  {
    StartedIs(address, table);
    assert "Claim Number" in LateKeys && "Letter Type" in LateKeys && "MD ID No" in LateKeys;
    assert "Rohini ID" in LateKeys && "Reason" in LateKeys;
  }

  /** After the merge and the late stores each late key holds what its search found, or "null". */
  lemma CompletedStarted(address: string, table: map<string, string>, l: Late)
    requires forall k :: k in table ==> k in M.TableKeys
    ensures var r := Completed(Started(address, table), l);
            "Claim Number" in r && "Letter Type" in r && "MD ID No" in r && "Rohini ID" in r && "Reason" in r &&
            r["Claim Number"] == OrElse(l.claim, "null") &&
            r["Letter Type"] == (if l.cashless then "Approval" else "null") &&
            r["MD ID No"] == OrElse(l.mdId, "null") &&
            r["Rohini ID"] == OrElse(l.rohini, "null") &&
            r["Reason"] == l.reason
  {
    StartedLate(address, table);
    CompletedLate(Started(address, table), l);
  }

  /** Letter Type is "Approval" exactly when "Cashless Authorisation Letter" occurs, and otherwise stays "null". */
  lemma InfoLetterType(text: Option<string>, address: string, camelot: Option<string>)
    ensures "Letter Type" in Info(text, address, camelot)
    ensures Info(text, address, camelot)["Letter Type"] == "Approval" <==> text.Some? && Finds(M.CashlessPattern, text.value)
    ensures Info(text, address, camelot)["Letter Type"] == "Approval" || Info(text, address, camelot)["Letter Type"] == "null"
  {
    if text.Some? {
      M.TableDataIs(text.value);
      CompletedStarted(address, M.TableData(text.value), LateIn(text.value, camelot));
    } else {
      InfoNoText(address, camelot);
      assert "Letter Type" in LateKeys;
    }
  }

  /**
   * Claim Number, MD ID No and Rohini ID are "null" or the first token after their label, which
   * has no whitespace; the reason is "null" without text and otherwise the reason of the page.
   */
  lemma InfoTokensReason(text: Option<string>, address: string, camelot: Option<string>)
    ensures var r := Info(text, address, camelot);
            "Claim Number" in r && "MD ID No" in r && "Rohini ID" in r && "Reason" in r
    ensures var r := Info(text, address, camelot);
            (r["Claim Number"] == "null" || NoSpace(r["Claim Number"])) &&
            (r["MD ID No"] == "null" || NoSpace(r["MD ID No"])) &&
            (r["Rohini ID"] == "null" || NoSpace(r["Rohini ID"]))
    ensures text.Some? ==> Info(text, address, camelot)["Claim Number"] == OrElse(M.TokenOf(M.ClaimPattern, text.value), "null")
    ensures Info(text, address, camelot)["Reason"] == if text.Some? then ReasonOf(camelot, text.value) else "null"
  {
    if text.Some? {
      var t := text.value;
      M.TableDataIs(t);
      CompletedStarted(address, M.TableData(t), LateIn(t, camelot));
      M.TokenCaptures();
      M.TokenNoSpace(M.ClaimPattern, t);
      M.TokenNoSpace(M.MdIdPattern, t);
      M.TokenNoSpace(M.RohiniPattern, t);
    } else {
      InfoNoText(address, camelot);
      assert "Claim Number" in LateKeys && "MD ID No" in LateKeys && "Rohini ID" in LateKeys && "Reason" in LateKeys;
    }
  }
}
