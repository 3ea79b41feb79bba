/**
 * mdindia_query_rejection.py: the MD India query or denial letter read from its first page's
 * text. Seven keys, "null" until a pattern finds something; the Letter Type tells denial from
 * query; the MDI ID has a colon form and a fallback without colon; the reason follows the first
 * item numbered "1", with the "following reasons:" text as fallback.
 */
module MdIndiaQueryRejection {
  import opened Common
  import opened Text
  import opened Regex
  import opened Stores
  import M = MdIndiaApproval
  import Spam2

  // ---------------------------------------------------------------- extract_reason_from_pdf

  /** `\b1\s+(.+?)(?=Thanking|Authorized|Explanation|As per|Note|$)`, IGNORECASE and DOTALL. */
  const NumberedPattern: Pattern := CI([
    Boundary, Lit("1"), Ws1, Spam2.Lazy,
    Ahead([Lit("Thanking"), Lit("Authorized"), Lit("Explanation"), Lit("As per"), Lit("Note"), LineEnd])])

  /**
   * `extract_reason_from_pdf` once the page's text is known: the numbered reason, whitespace-
   * collapsed; else the "following reasons:" text (spam2.py's pattern, character for character),
   * stripped only; else "null".
   */
  function ReasonText(text: string): string
  {
    var m := Search(NumberedPattern, text);
    if m.Some? then Collapse(Strip(GroupText(m.value, text, 1)))
    else
      var d := Search(Spam2.DenialPattern, text);
      if d.Some? then Strip(GroupText(d.value, text, 1)) else "null"
  }

  /** The numbered reason wins and is single-spaced; the "following reasons:" text is the fallback. */
  lemma ReasonCases(text: string)
    ensures Finds(NumberedPattern, text) ==>
              ReasonText(text) == Collapse(Strip(GroupText(Search(NumberedPattern, text).value, text, 1))) &&
              SingleSpaced(ReasonText(text)) && IsStripped(ReasonText(text))
    ensures !Finds(NumberedPattern, text) && Finds(Spam2.DenialPattern, text) ==>
              ReasonText(text) == Strip(GroupText(Search(Spam2.DenialPattern, text).value, text, 1))
    ensures !Finds(NumberedPattern, text) && !Finds(Spam2.DenialPattern, text) ==> ReasonText(text) == "null"
  {
    if Finds(NumberedPattern, text) {
      CollapseSingle(Strip(GroupText(Search(NumberedPattern, text).value, text, 1)));
    }
  }

  // ---------------------------------------------------------------- the field patterns

  /** `([^\s\n]+)` */
  const TokenCap: Item := Cap(1, M.TokenClass, 1, Unbounded, true)

  /** `Patient\s*Name\s*:\s*([^\n]+)`, IGNORECASE. */
  const NamePattern: Pattern := CI([Lit("Patient"), Ws0, Lit("Name")] + M.Colon + [Cap(1, Negate(Chars("\n")), 1, Unbounded, true)])

  /** `DENIAL\s+OF\s+AUTHORIZATION\s+LETTER`, IGNORECASE. */
  const DenialLetterPattern: Pattern := CI(PhraseItems(["DENIAL", "OF", "AUTHORIZATION", "LETTER"]))

  /** `Policy\s*No\.?\s*:\s*([^\s\n]+)`, IGNORECASE. */
  const PolicyPattern: Pattern := CI([Lit("Policy"), Ws0, Lit("No"), Spam2.OptDot] + M.Colon + [TokenCap])

  /** `[A-Z0-9-]` */
  const MdiClass: CharClass := Union(Range('A', 'Z'), Union(Range('0', '9'), Chars("-")))

  /** `MDI\s*(?:ID\s*No\.?)?` */
  const MdiLabel: seq<Item> := [Lit("MDI"), Ws0, Alt([Seq([Lit("ID"), Ws0, Lit("No"), Spam2.OptDot]), Seq([])])]

  /** `MDI\s*(?:ID\s*No\.?)?\s*:\s*([A-Z0-9-]+)`, IGNORECASE. */
  const MdiColonPattern: Pattern := CI(MdiLabel + M.Colon + [Cap(1, MdiClass, 1, Unbounded, true)])

  /** `MDI\s*(?:ID\s*No\.?)?\s+([A-Z0-9-]+)`, IGNORECASE: tried when the colon form fails. */
  const MdiSpacePattern: Pattern := CI(MdiLabel + [Ws1, Cap(1, MdiClass, 1, Unbounded, true)])

  /** `CCN\s*:\s*([^\s\n]+)`, IGNORECASE. */
  const CcnPattern: Pattern := CI([Lit("CCN")] + M.Colon + [TokenCap])

  /** The MDI ID: the colon form's token, and only when there is none the whitespace form's. */
  function MdiOf(t: string): Option<string>
  {
    if Finds(MdiColonPattern, t) then M.TokenOf(MdiColonPattern, t) else M.TokenOf(MdiSpacePattern, t)
  }

  // ---------------------------------------------------------------- extract_info_from_pdf

  /** The keys of `extracted_data`. */
  const InfoKeys: seq<string> := ["Name of the Patient", "Policy No", "Hospital Address", "CCN", "Letter Type", "MDI ID No", "Reason"]

  /** The initial `extracted_data`: "null" everywhere. */
  const Defaults: map<string, string> := map k | k in InfoKeys :: "null"

  /** What the searches in the page's text found. */
  datatype Searched = Searched(name: Option<string>, denied: bool, policy: Option<string>, mdi: Option<string>, ccn: Option<string>, reason: string)

  function SearchedIn(t: string): Searched
  {
    Searched(M.TokenOf(NamePattern, t), Finds(DenialLetterPattern, t), M.TokenOf(PolicyPattern, t), MdiOf(t),
          M.TokenOf(CcnPattern, t), ReasonText(t))
  }

  /** The stores of `extract_info_from_pdf` after the address. */
  function Filled(d: map<string, string>, f: Searched): map<string, string>
  {
    var d1 := StoreIf(d, "Name of the Patient", f.name);
    var d2 := d1["Letter Type" := if f.denied then "Authorization Denied" else "Query Letter"];
    var d3 := StoreIf(d2, "Policy No", f.policy);
    var d4 := StoreIf(d3, "MDI ID No", f.mdi);
    var d5 := StoreIf(d4, "CCN", f.ccn);
    d5["Reason" := f.reason]
  }

  /**
   * `extract_info_from_pdf` once the page's text (None when the page has none) and the address
   * layout are known. Without text the first `re.search` raises, and the `except` keeps the
   * defaults and the address.
   */
  function Info(text: Option<string>, address: string): map<string, string>
  {
    var d := Defaults["Hospital Address" := address];
    if text.None? then d else Filled(d, SearchedIn(text.value))
  }

  /** `match = re.search(p, text); if match: extracted_data[key] = match.group(1).strip()` */
  method StoreToken(d: map<string, string>, key: string, p: Pattern, t: string) returns (r: map<string, string>)
    ensures r == StoreIf(d, key, M.TokenOf(p, t))
  {
    r := d;
    var m := Search(p, t);
    if m.Some? {
      r := r[key := Strip(GroupText(m.value, t, 1))];
    }
  }

  method ExtractInfo(text: Option<string>, address: string) returns (data: map<string, string>)
    ensures data == Info(text, address)
  {
    data := Defaults;
    data := data["Hospital Address" := address];
    if text.None? {
      return;
    }
    data := ExtractFields(data, text.value);
  }

  /** The searches of `extract_info_from_pdf` and their stores into `extracted_data`. */
  method ExtractFields(d: map<string, string>, t: string) returns (data: map<string, string>)
    ensures data == Filled(d, SearchedIn(t))
  {
    data := StoreToken(d, "Name of the Patient", NamePattern, t);
    var denial := Search(DenialLetterPattern, t);
    if denial.Some? {
      data := data["Letter Type" := "Authorization Denied"];
    } else {
      data := data["Letter Type" := "Query Letter"];
    }
    data := StoreToken(data, "Policy No", PolicyPattern, t);
    data := StoreMdi(data, t);
    data := StoreToken(data, "CCN", CcnPattern, t);
    data := data["Reason" := ReasonText(t)];
  }

  /** The MDI ID's two searches and its store. */
  method StoreMdi(d: map<string, string>, t: string) returns (r: map<string, string>)
    ensures r == StoreIf(d, "MDI ID No", MdiOf(t))
  {
    r := d;
    var m := Search(MdiColonPattern, t);
    if m.None? {
      m := Search(MdiSpacePattern, t);
    }
    if m.Some? {
      r := r["MDI ID No" := Strip(GroupText(m.value, t, 1))];
    }
  }

  // ---------------------------------------------------------------- what the record holds

  /** The defaults hold the seven keys, each "null". */
  lemma DefaultsIs()
    ensures Defaults.Keys == set k | k in InfoKeys
    ensures forall k :: k in Defaults ==> Defaults[k] == "null"
  {
  }

  /** The keys `Filled` writes. */
  predicate HasFilledKeys(d: map<string, string>)
  {
    "Name of the Patient" in d && "Letter Type" in d && "Policy No" in d && "MDI ID No" in d && "CCN" in d && "Reason" in d
  }

  /** Filling adds no key. */
  lemma FilledKeys(d: map<string, string>, f: Searched)
    requires HasFilledKeys(d)
    ensures Filled(d, f).Keys == d.Keys
  {
    StoreIfKeys(d, "Name of the Patient", f.name);
    var d1 := StoreIf(d, "Name of the Patient", f.name);
    var d2 := d1["Letter Type" := if f.denied then "Authorization Denied" else "Query Letter"];
    assert d2.Keys == d.Keys;
    StoreIfKeys(d2, "Policy No", f.policy);
    var d3 := StoreIf(d2, "Policy No", f.policy);
    StoreIfKeys(d3, "MDI ID No", f.mdi);
    var d4 := StoreIf(d3, "MDI ID No", f.mdi);
    StoreIfKeys(d4, "CCN", f.ccn);
    assert Filled(d, f) == StoreIf(d4, "CCN", f.ccn)["Reason" := f.reason];
  }

  /** Each key holds what its search found, or its earlier value; "Hospital Address" is kept. */
  lemma FilledValues(d: map<string, string>, f: Searched)
    requires HasFilledKeys(d) && "Hospital Address" in d
    ensures var r := Filled(d, f);
            HasFilledKeys(r) && "Hospital Address" in r &&
            r["Name of the Patient"] == OrElse(f.name, d["Name of the Patient"]) &&
            r["Letter Type"] == (if f.denied then "Authorization Denied" else "Query Letter") &&
            r["Policy No"] == OrElse(f.policy, d["Policy No"]) &&
            r["MDI ID No"] == OrElse(f.mdi, d["MDI ID No"]) &&
            r["CCN"] == OrElse(f.ccn, d["CCN"]) &&
            r["Reason"] == f.reason &&
            r["Hospital Address"] == d["Hospital Address"]
  {
    var d1 := StoreIf(d, "Name of the Patient", f.name);
    StoreIfIs(d, "Name of the Patient", f.name);
    var d2 := d1["Letter Type" := if f.denied then "Authorization Denied" else "Query Letter"];
    var d3 := StoreIf(d2, "Policy No", f.policy);
    StoreIfIs(d2, "Policy No", f.policy);
    var d4 := StoreIf(d3, "MDI ID No", f.mdi);
    StoreIfIs(d3, "MDI ID No", f.mdi);
    var d5 := StoreIf(d4, "CCN", f.ccn);
    StoreIfIs(d4, "CCN", f.ccn);
    assert Filled(d, f) == d5["Reason" := f.reason];
  }

  /** The defaults with the address hold the seven keys, the address, and "null" elsewhere. */
  lemma StartIs(address: string)
    ensures var d := Defaults["Hospital Address" := address];
            d.Keys == (set k | k in InfoKeys) && HasFilledKeys(d) && d["Hospital Address"] == address &&
            d["Name of the Patient"] == "null" && d["Policy No"] == "null" && d["MDI ID No"] == "null" && d["CCN"] == "null"
  {
    DefaultsIs();
    assert "Hospital Address" in InfoKeys && "Name of the Patient" in InfoKeys && "Letter Type" in InfoKeys;
    assert "Policy No" in InfoKeys && "MDI ID No" in InfoKeys && "CCN" in InfoKeys && "Reason" in InfoKeys;
  }

  /** The record always has the seven keys and the layout's address; without text every other key is "null". */
  lemma InfoKeysAddress(text: Option<string>, address: string)
    ensures Info(text, address).Keys == set k | k in InfoKeys
    ensures "Hospital Address" in Info(text, address) && Info(text, address)["Hospital Address"] == address
    ensures text.None? ==> forall k :: k in Info(text, address) && k != "Hospital Address" ==> Info(text, address)[k] == "null"
  {
    StartIs(address);
    DefaultsIs();
    var d := Defaults["Hospital Address" := address];
    if text.Some? {
      FilledKeys(d, SearchedIn(text.value));
      FilledValues(d, SearchedIn(text.value));
    }
  }

  /**
   * With text the Letter Type is "Authorization Denied" exactly when "DENIAL OF AUTHORIZATION
   * LETTER" occurs, and "Query Letter" otherwise; every other key holds its search's value, or
   * "null" when the search found nothing, and the reason is the page's.
   */
  lemma InfoValues(t: string, address: string)
    ensures var r := Info(Some(t), address);
            HasFilledKeys(r) &&
            (r["Letter Type"] == "Authorization Denied" <==> Finds(DenialLetterPattern, t)) &&
            (r["Letter Type"] == "Query Letter" <==> !Finds(DenialLetterPattern, t)) &&
            r["Name of the Patient"] == OrElse(M.TokenOf(NamePattern, t), "null") &&
            r["Policy No"] == OrElse(M.TokenOf(PolicyPattern, t), "null") &&
            r["MDI ID No"] == OrElse(MdiOf(t), "null") &&
            r["CCN"] == OrElse(M.TokenOf(CcnPattern, t), "null") &&
            r["Reason"] == ReasonText(t)
  {
    StartIs(address);
    FilledValues(Defaults["Hospital Address" := address], SearchedIn(t));
  }

  // ---------------------------------------------------------------- what the searches find

  /** `[^\n]` */
  const LineChar: CharClass := Negate(Chars("\n"))

  lemma NameCaptures()
    ensures AllCaptureClass(NamePattern.items, 1, LineChar, 1) && SetsGroup(NamePattern.items, 1)
  {
    var items := NamePattern.items;
    assert forall j :: 0 <= j < |items| ==> ItemCapturesClass(items[j], 1, LineChar, 1);
    assert SetsGroup(items[6..], 1);
    assert SetsGroup(items[5..], 1);
    assert SetsGroup(items[4..], 1);
    assert SetsGroup(items[3..], 1);
    assert SetsGroup(items[2..], 1);
    assert SetsGroup(items[1..], 1);
  }

  /** The name is the rest of the label's line: non-empty, stripped, without a line break. */
  lemma NameLine(t: string)
    ensures M.TokenOf(NamePattern, t).Some? <==> Finds(NamePattern, t)
    ensures M.TokenOf(NamePattern, t).Some? ==>
              var v := M.TokenOf(NamePattern, t).value;
              IsStripped(v) && forall j :: 0 <= j < |v| ==> v[j] != '\n'
  {
    if Finds(NamePattern, t) {
      NameCaptures();
      SearchSetsGroup(NamePattern, t, 1);
      SearchCapturedText(NamePattern, t, 1, LineChar, 1);
      var g := GroupText(Search(NamePattern, t).value, t, 1);
      forall j | 0 <= j < |g| ensures g[j] != '\n' {
        var c := g[j];
        assert InClass(c, LineChar, true);
        assert !InClass(c, Chars("\n"), true);
        NonLetterFolds(c);
      }
      StripAvoids(g, '\n');
    }
  }

  lemma TokenCaptures()
    ensures AllCaptureClass(PolicyPattern.items, 1, M.TokenClass, 1) && SetsGroup(PolicyPattern.items, 1)
    ensures AllCaptureClass(CcnPattern.items, 1, M.TokenClass, 1) && SetsGroup(CcnPattern.items, 1)
  {
    var items := PolicyPattern.items;
    assert forall j :: 0 <= j < |items| ==> ItemCapturesClass(items[j], 1, M.TokenClass, 1);
    assert SetsGroup(items[7..], 1);
    assert SetsGroup(items[6..], 1);
    assert SetsGroup(items[5..], 1);
    assert SetsGroup(items[4..], 1);
    assert SetsGroup(items[3..], 1);
    assert SetsGroup(items[2..], 1);
    assert SetsGroup(items[1..], 1);
    CcnCaptures();
  }

  lemma CcnCaptures()
    ensures AllCaptureClass(CcnPattern.items, 1, M.TokenClass, 1) && SetsGroup(CcnPattern.items, 1)
  {
    var ccn := CcnPattern.items;
    assert ccn == [Lit("CCN")] + M.Colon + [TokenCap];
    assert forall j :: 0 <= j < |ccn| ==> ItemCapturesClass(ccn[j], 1, M.TokenClass, 1);
    assert SetsGroup(ccn[4..], 1);
    assert SetsGroup(ccn[3..], 1);
    assert SetsGroup(ccn[2..], 1);
    assert SetsGroup(ccn[1..], 1);
  }

  /** A character of `[^\s\n]` is not whitespace, under IGNORECASE too. */
  lemma TokenCharNotSpace(c: char)
    ensures InClass(c, M.TokenClass, true) ==> !IsSpace(c)
  {
    assert M.TokenClass == Negate(Union(Space, Chars("\n")));
    assert InClass(c, M.TokenClass, true) == !InClass(c, Union(Space, Chars("\n")), true);
    assert InClass(c, Union(Space, Chars("\n")), true) == (InClass(c, Space, true) || InClass(c, Chars("\n"), true));
  }

  /** A first-token value is the whole capture: non-empty and without whitespace. */
  lemma TokenKept(p: Pattern, t: string)
    requires p.ignoreCase && AllCaptureClass(p.items, 1, M.TokenClass, 1) && SetsGroup(p.items, 1)
    ensures M.TokenOf(p, t).Some? <==> Finds(p, t)
    ensures M.TokenOf(p, t).Some? ==> |M.TokenOf(p, t).value| > 0 && NoSpace(M.TokenOf(p, t).value)
  {
    if Finds(p, t) {
      SearchSetsGroup(p, t, 1);
      SearchCapturedText(p, t, 1, M.TokenClass, 1);
      var g := GroupText(Search(p, t).value, t, 1);
      forall j | 0 <= j < |g| ensures !IsSpace(g[j]) {
        TokenCharNotSpace(g[j]);
      }
      StripStripped(g);
    }
  }

  /** Policy No and CCN are the label's first whitespace-free token, never empty. */
  lemma TokenFields(t: string)
    ensures M.TokenOf(PolicyPattern, t).Some? <==> Finds(PolicyPattern, t)
    ensures M.TokenOf(CcnPattern, t).Some? <==> Finds(CcnPattern, t)
    ensures M.TokenOf(PolicyPattern, t).Some? ==> |M.TokenOf(PolicyPattern, t).value| > 0 && NoSpace(M.TokenOf(PolicyPattern, t).value)
    ensures M.TokenOf(CcnPattern, t).Some? ==> |M.TokenOf(CcnPattern, t).value| > 0 && NoSpace(M.TokenOf(CcnPattern, t).value)
  {
    TokenCaptures();
    TokenKept(PolicyPattern, t);
    TokenKept(CcnPattern, t);
  }

  /** A character of `[A-Z0-9-]` under IGNORECASE is a letter, a digit or a hyphen. */
  lemma MdiClassChars(c: char)
    requires InClass(c, MdiClass, true)
    ensures IsLetter(c) || IsDigit(c) || c == '-'
  {
    assert InClass(c, Range('A', 'Z'), true) || InClass(c, Range('0', '9'), true) || InClass(c, Chars("-"), true);
    NonLetterFolds(c);
  }

  /** The MDI patterns capture group 1 only as `[A-Z0-9-]+`. */
  lemma MdiCaptures()
    ensures AllCaptureClass(MdiColonPattern.items, 1, MdiClass, 1)
    ensures AllCaptureClass(MdiSpacePattern.items, 1, MdiClass, 1)
  {
    var opt := [Lit("ID"), Ws0, Lit("No"), Spam2.OptDot];
    assert AllCaptureClass(opt, 1, MdiClass, 1);
    assert AllCaptureClass([Seq(opt), Seq([])], 1, MdiClass, 1);
    assert ItemCapturesClass(MdiLabel[2], 1, MdiClass, 1);
    assert AllCaptureClass(MdiLabel, 1, MdiClass, 1);
    assert AllCaptureClass(M.Colon, 1, MdiClass, 1);
    AllCaptureClassAppend(MdiLabel, M.Colon, 1, MdiClass, 1);
    AllCaptureClassAppend(MdiLabel + M.Colon, [Cap(1, MdiClass, 1, Unbounded, true)], 1, MdiClass, 1);
    AllCaptureClassAppend(MdiLabel, [Ws1, Cap(1, MdiClass, 1, Unbounded, true)], 1, MdiClass, 1);
  }

  /** A value of a pattern capturing `[A-Z0-9-]+` is made of letters, digits and hyphens. */
  lemma MdiToken(p: Pattern, t: string)
    requires p.ignoreCase && AllCaptureClass(p.items, 1, MdiClass, 1)
    ensures M.TokenOf(p, t).Some? <==> Finds(p, t)
    ensures M.TokenOf(p, t).Some? ==>
              forall j :: 0 <= j < |M.TokenOf(p, t).value| ==>
                IsLetter(M.TokenOf(p, t).value[j]) || IsDigit(M.TokenOf(p, t).value[j]) || M.TokenOf(p, t).value[j] == '-'
  {
    if Finds(p, t) {
      var g := GroupText(Search(p, t).value, t, 1);
      if 1 in Search(p, t).value.caps {
        SearchCapturedText(p, t, 1, MdiClass, 1);
        forall j | 0 <= j < |g| ensures IsLetter(g[j]) || IsDigit(g[j]) || g[j] == '-' {
          MdiClassChars(g[j]);
        }
      }
      assert forall j :: 0 <= j < |g| ==> !IsSpace(g[j]);
      StripStripped(g);
    }
  }

  /**
   * The MDI ID is the colon form's token when that form occurs, else the whitespace form's,
   * else nothing; either way a run of letters, digits and hyphens.
   */
  lemma MdiForms(t: string)
    ensures Finds(MdiColonPattern, t) ==> MdiOf(t) == M.TokenOf(MdiColonPattern, t) && MdiOf(t).Some?
    ensures !Finds(MdiColonPattern, t) ==> MdiOf(t) == M.TokenOf(MdiSpacePattern, t)
    ensures MdiOf(t).None? <==> !Finds(MdiColonPattern, t) && !Finds(MdiSpacePattern, t)
    ensures MdiOf(t).Some? ==>
              forall j :: 0 <= j < |MdiOf(t).value| ==> IsLetter(MdiOf(t).value[j]) || IsDigit(MdiOf(t).value[j]) || MdiOf(t).value[j] == '-'
  {
    MdiCaptures();
    MdiToken(MdiColonPattern, t);
    MdiToken(MdiSpacePattern, t);
  }
}
