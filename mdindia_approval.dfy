/**
 * The text-level part of mdindia_approval.py: the remarks between "Authorisation Remarks :"
 * and "Please don't collect", the authorization-details table (one status per date and time,
 * the amounts summed), the table fields stored only when their pattern matches, and the
 * record `extract_info_from_pdf` assembles from them.
 */
module MdIndiaApproval {
  import opened Common
  import opened Text
  import opened Regex

  // ---------------------------------------------------------------- extract_authorization_remarks

  /** `Authorisation Remarks :(.*?)Please don't collect`, DOTALL and IGNORECASE. */
  const RemarksPattern: Pattern :=
    Pattern([Lit("Authorisation Remarks :"), Cap(1, AnyChar, 0, Unbounded, false), Lit("Please don't collect")], true, false)

  /** `extract_authorization_remarks(text)` */
  function AuthorizationRemarks(text: string): (r: string)
  {
    var m := Search(RemarksPattern, text);
    if m.Some? then Collapse(Strip(GroupText(m.value, text, 1))) else "null"
  }

  /** Without the two markers the remarks are "null"; with them, the text between is single-spaced and stripped. */
  lemma RemarksShape(text: string)
    ensures !Finds(RemarksPattern, text) ==> AuthorizationRemarks(text) == "null"
    ensures Finds(RemarksPattern, text) ==>
              SingleSpaced(AuthorizationRemarks(text)) && IsStripped(AuthorizationRemarks(text))
  {
    var m := Search(RemarksPattern, text);
    if m.Some? {
      CollapseSingle(Strip(GroupText(m.value, text, 1)));
    }
  }

  // ---------------------------------------------------------------- extract_authorization_details

  /** The "Authorization Details" entry: a status per "date time" and the authorized total. */
  datatype AuthDetails = AuthDetails(dateAndTime: map<string, string>, amount: nat)

  /** `{"Date and Time": {}, "Authorized Amount": 0}` */
  const NoDetails: AuthDetails := AuthDetails(map[], 0)

  /** `Authorization Details :(.*?)(?:\n\*\*|$)`, DOTALL and IGNORECASE. */
  const SectionPattern: Pattern :=
    Pattern([Lit("Authorization Details :"), Cap(1, AnyChar, 0, Unbounded, false), Alt([Lit("\n**"), LineEnd])], true, false)

  /** `(\d{2}/\d{2}/\d{4})\s+(\d{1,2}:\d{2}:\d{2}(?:AM|PM))\s+([A-Z0-9]+)\s+([\d,]+)\s+([A-Z][A-Z\s]+)` */
  const RowPattern: Pattern := Pattern([
    Group(1, [Rep(Digit, 2, AtMost(2), true), Lit("/"), Rep(Digit, 2, AtMost(2), true), Lit("/"), Rep(Digit, 4, AtMost(4), true)]),
    Ws1,
    Group(2, [Rep(Digit, 1, AtMost(2), true), Lit(":"), Rep(Digit, 2, AtMost(2), true), Lit(":"), Rep(Digit, 2, AtMost(2), true),
              Alt([Lit("AM"), Lit("PM")])]),
    Ws1,
    Cap(3, Union(Range('A', 'Z'), Range('0', '9')), 1, Unbounded, true),
    Ws1,
    Cap(4, Union(Digit, Chars(",")), 1, Unbounded, true),
    Ws1,
    Group(5, [Rep(Range('A', 'Z'), 1, AtMost(1), true), Rep(Union(Range('A', 'Z'), Space), 1, Unbounded, true)])
  ], false, false)

  /** One matched row: its "date time" key, its raw amount text and its stripped status. */
  datatype Row = Row(key: string, amount: string, status: string)

  function RowOf(m: Match, s: string): Row
    requires ValidMatch(m, s)
  {
    Row(GroupText(m, s, 1) + " " + GroupText(m, s, 2), GroupText(m, s, 4), Strip(GroupText(m, s, 5)))
  }

  /** `int(amount.replace(',', ''))`; `int` raises on the empty string or a non-digit. */
  function Amount(raw: string): Option<nat>
  {
    var d := Replace(raw, ",", "");
    if d != "" && AllDigits(d) then Some(ParseNat(d)) else None
  }

  /** The statuses of the first `n` rows, a later row overwriting an earlier one with the same key. */
  function Statuses(rows: seq<Row>, n: nat): map<string, string>
    requires n <= |rows|
  {
    if n == 0 then map[] else Statuses(rows, n - 1)[rows[n - 1].key := rows[n - 1].status]
  }

  /** The sum of the first `n` rows' amounts, None once an amount does not parse. */
  function Total(rows: seq<Row>, n: nat): Option<nat>
    requires n <= |rows|
  {
    if n == 0 then Some(0)
    else
      var t := Total(rows, n - 1);
      var a := Amount(rows[n - 1].amount);
      if t.Some? && a.Some? then Some(t.value + a.value) else None
  }

  /** The table: no section gives no details; a row whose amount does not parse raises. */
  function DetailsOfRows(rows: seq<Row>): Result<AuthDetails>
  {
    var t := Total(rows, |rows|);
    if t.None? then Err("invalid literal for int()") else Ok(AuthDetails(Statuses(rows, |rows|), t.value))
  }

  /** The rows `finditer` yields in the section's text. */
  function Rows(ms: seq<Match>, s: string): (rows: seq<Row>)
    requires forall k :: 0 <= k < |ms| ==> ValidMatch(ms[k], s)
    ensures |rows| == |ms|
    decreases |ms|
  {
    if |ms| == 0 then [] else Rows(ms[..|ms| - 1], s) + [RowOf(ms[|ms| - 1], s)]
  }

  /** `extract_authorization_details(text)` */
  function AuthorizationDetails(text: string): Result<AuthDetails>
  {
    var section := Search(SectionPattern, text);
    if section.None? then Ok(NoDetails)
    else
      var g := GroupText(section.value, text, 1);
      DetailsOfRows(Rows(FindAll(RowPattern, g), g))
  }

  /** A key is in the map exactly when some row has it, and holds the status of the last such row. */
  lemma {:induction false} StatusesLast(rows: seq<Row>, n: nat, key: string)
    requires n <= |rows|
    ensures key in Statuses(rows, n) <==> exists j :: 0 <= j < n && rows[j].key == key
    ensures key in Statuses(rows, n) ==>
              exists j :: 0 <= j < n && rows[j].key == key && Statuses(rows, n)[key] == rows[j].status &&
                          forall i :: j < i < n ==> rows[i].key != key
  {
    if n > 0 {
      StatusesLast(rows, n - 1, key);
      if rows[n - 1].key != key && key in Statuses(rows, n) {
        var j :| 0 <= j < n - 1 && rows[j].key == key && Statuses(rows, n - 1)[key] == rows[j].status &&
                 forall i :: j < i < n - 1 ==> rows[i].key != key;
        assert forall i :: j < i < n ==> rows[i].key != key;
      }
    }
  }

  /** The total exists exactly when every amount parses. */
  lemma {:induction false} TotalSome(rows: seq<Row>, n: nat)
    requires n <= |rows|
    ensures Total(rows, n).Some? <==> forall j :: 0 <= j < n ==> Amount(rows[j].amount).Some?
  {
    if n > 0 {
      TotalSome(rows, n - 1);
    }
  }

  /** Without a section the details are the defaults; a section whose rows all parse yields their statuses and sum. */
  lemma DetailsCases(text: string)
    ensures !Finds(SectionPattern, text) ==> AuthorizationDetails(text) == Ok(NoDetails)
    ensures Finds(SectionPattern, text) ==>
              var g := GroupText(Search(SectionPattern, text).value, text, 1);
              var rows := Rows(FindAll(RowPattern, g), g);
              (AuthorizationDetails(text).Ok? <==> forall j :: 0 <= j < |rows| ==> Amount(rows[j].amount).Some?) &&
              (AuthorizationDetails(text).Ok? ==>
                 AuthorizationDetails(text).value.dateAndTime.Keys == set j | 0 <= j < |rows| :: rows[j].key)
  {
    if Finds(SectionPattern, text) {
      var g := GroupText(Search(SectionPattern, text).value, text, 1);
      var rows := Rows(FindAll(RowPattern, g), g);
      TotalSome(rows, |rows|);
      var st := Statuses(rows, |rows|);
      forall key
        ensures key in st <==> key in (set j | 0 <= j < |rows| :: rows[j].key)
      {
        StatusesLast(rows, |rows|, key);
      }
    }
  }

  /** The row loop: `auth_details["Date and Time"][key] = status` and `auth_details["Authorized Amount"] += amount`. */
  method ScanRows(rows: seq<Row>) returns (r: Result<AuthDetails>)
    ensures r == DetailsOfRows(rows)
  {
    var dateAndTime: map<string, string> := map[];
    var amount: nat := 0;
    var k := 0;
    while k < |rows|
      invariant k <= |rows|
      invariant Total(rows, k) == Some(amount)
      invariant dateAndTime == Statuses(rows, k)
    {
      var a := Amount(rows[k].amount);
      if a.None? {
        TotalNoneStays(rows, k + 1, |rows|);
        return Err("invalid literal for int()");
      }
      dateAndTime := dateAndTime[rows[k].key := rows[k].status];
      amount := amount + a.value;
      k := k + 1;
    }
    return Ok(AuthDetails(dateAndTime, amount));
  }

  /** Once an amount does not parse, no longer prefix has a total. */
  lemma {:induction false} TotalNoneStays(rows: seq<Row>, n: nat, m: nat)
    requires n <= m <= |rows| && Total(rows, n).None?
    ensures Total(rows, m).None?
    decreases m - n
  {
    if n < m {
      TotalNoneStays(rows, n + 1, m);
    }
  }

  method ExtractAuthorizationDetails(text: string) returns (r: Result<AuthDetails>)
    ensures r == AuthorizationDetails(text)
  {
    var section := Search(SectionPattern, text);
    if section.None? {
      return Ok(NoDetails);
    }
    var g := GroupText(section.value, text, 1);
    r := ScanRows(Rows(FindAll(RowPattern, g), g));
  }

  // ---------------------------------------------------------------- extract_table_data

  /** `\s*:\s*` */
  const Colon: seq<Item> := [Ws0, Lit(":"), Ws0]

  /** `([^\n]+?)(?=\s*w|$)` */
  function LineUpTo(w: seq<Item>): seq<Item>
  {
    [Cap(1, Negate(Chars("\n")), 1, Unbounded, false), Ahead([Seq([Ws0] + w), LineEnd])]
  }

  /** `(\d{2}\/\d{2}\/\d{4})` */
  const SlashDate: Item := Group(1, [Rep(Digit, 2, AtMost(2), true), Lit("/"), Rep(Digit, 2, AtMost(2), true), Lit("/"),
                                     Rep(Digit, 4, AtMost(4), true)])

  function Plain(items: seq<Item>): Pattern { Pattern(items, false, false) }

  /** The keys `extract_table_data` may store, in the order of its table. */
  const TableKeys: seq<string> := [
    "Name of the Patient", "Policy No", "Date of Admission", "Date of Discharge",
    "Room Category", "Provisional Diagnosis", "Proposed Treatment"]

  /** The table's patterns, one per key. */
  const TablePatterns: seq<Pattern> := [
    Plain([Lit("Patient Name")] + Colon + LineUpTo([Lit("Age"), Ws0, Lit(":")])),
    Plain([Lit("Policy Number")] + Colon +
          [Cap(1, Union(Range('A', 'Z'), Union(Range('a', 'z'), Union(Range('0', '9'), Chars("/-")))), 1, Unbounded, true)]),
    Plain([Lit("Expected Date of Admission")] + Colon + [SlashDate]),
    Plain([Lit("Expected Date of Discharge")] + Colon + [SlashDate]),
    Plain([Lit("Room Category")] + Colon + LineUpTo([Lit("Estimated")])),
    Plain([Lit("Provisional Diagnosis")] + Colon + LineUpTo([Lit("Proposed")])),
    Plain([Lit("Proposed Line of Treatment")] + Colon + [Cap(1, Negate(Chars("\n")), 1, Unbounded, true)])
  ]

  /** The stores of the first `n` entries: `if match: data[key] = match.group(1).strip()`. */
  function Stores(keys: seq<string>, ps: seq<Pattern>, text: string, n: nat): map<string, string>
    requires n <= |keys| == |ps|
  {
    if n == 0 then map[]
    else
      var d := Stores(keys, ps, text, n - 1);
      var m := Search(ps[n - 1], text);
      if m.Some? then d[keys[n - 1] := Strip(GroupText(m.value, text, 1))] else d
  }

  /** `extract_table_data(text)` */
  function TableData(text: string): map<string, string>
  {
    Stores(TableKeys, TablePatterns, text, |TableKeys|)
  }

  /** With distinct keys, an entry's key is stored exactly when its pattern matched, with its stripped group. */
  lemma StoresIs(keys: seq<string>, ps: seq<Pattern>, text: string, n: nat)
    requires n <= |keys| == |ps|
    requires forall i, j :: 0 <= i < j < |keys| ==> keys[i] != keys[j]
    ensures forall k :: k in Stores(keys, ps, text, n) ==> k in keys[..n]
    ensures forall j :: 0 <= j < n ==> (keys[j] in Stores(keys, ps, text, n) <==> Finds(ps[j], text))
    ensures forall j :: 0 <= j < n && Finds(ps[j], text) ==>
              Stores(keys, ps, text, n)[keys[j]] == Strip(GroupText(Search(ps[j], text).value, text, 1))
  {
    StoresKeys(keys, ps, text, n);
    forall j | 0 <= j < n
      ensures keys[j] in Stores(keys, ps, text, n) <==> Finds(ps[j], text)
      ensures Finds(ps[j], text) ==> Stores(keys, ps, text, n)[keys[j]] == Strip(GroupText(Search(ps[j], text).value, text, 1))
    {
      StoresEntry(keys, ps, text, n, j);
    }
  }

  /** Only the keys of the first `n` entries are stored. */
  lemma {:induction false} StoresKeys(keys: seq<string>, ps: seq<Pattern>, text: string, n: nat)
    requires n <= |keys| == |ps|
    ensures forall k :: k in Stores(keys, ps, text, n) ==> k in keys[..n]
  {
    if n > 0 {
      StoresKeys(keys, ps, text, n - 1);
      assert keys[..n] == keys[..n - 1] + [keys[n - 1]];
    }
  }

  /** With distinct keys, entry `j` is stored exactly when its pattern matched, with its stripped group. */
  lemma {:induction false} StoresEntry(keys: seq<string>, ps: seq<Pattern>, text: string, n: nat, j: nat)
    requires j < n <= |keys| == |ps|
    requires forall i, j :: 0 <= i < j < |keys| ==> keys[i] != keys[j]
    ensures keys[j] in Stores(keys, ps, text, n) <==> Finds(ps[j], text)
    ensures Finds(ps[j], text) ==> Stores(keys, ps, text, n)[keys[j]] == Strip(GroupText(Search(ps[j], text).value, text, 1))
  {
    if j < n - 1 {
      StoresEntry(keys, ps, text, n - 1, j);
      assert keys[j] != keys[n - 1];
    }
    else {
      StoresNotYet(keys, ps, text, n - 1, j);
    }
  }

  /** With distinct keys, an entry's key is not stored before its own store. */
  lemma {:induction false} StoresNotYet(keys: seq<string>, ps: seq<Pattern>, text: string, n: nat, j: nat)
    requires n <= j < |keys| == |ps|
    requires forall i, j :: 0 <= i < j < |keys| ==> keys[i] != keys[j]
    ensures keys[j] !in Stores(keys, ps, text, n)
  {
    if n > 0 {
      StoresNotYet(keys, ps, text, n - 1, j);
      assert keys[n - 1] != keys[j];
    }
  }

  lemma TableKeysDistinct()
    ensures forall i, j :: 0 <= i < j < |TableKeys| ==> TableKeys[i] != TableKeys[j]
  {
  }

  /** A key is in the table data only when its pattern matched, and then holds the stripped group. */
  lemma TableDataIs(text: string)
    ensures forall k :: k in TableData(text) ==> k in TableKeys
    ensures forall j :: 0 <= j < |TableKeys| ==> (TableKeys[j] in TableData(text) <==> Finds(TablePatterns[j], text))
    ensures forall j :: 0 <= j < |TableKeys| && Finds(TablePatterns[j], text) ==>
              TableData(text)[TableKeys[j]] == Strip(GroupText(Search(TablePatterns[j], text).value, text, 1))
  {
    TableKeysDistinct();
    StoresIs(TableKeys, TablePatterns, text, |TableKeys|);
    assert TableKeys[..|TableKeys|] == TableKeys;
  }

  // ---------------------------------------------------------------- extract_info_from_pdf

  /** A value of the record: a string, or the authorization-details entry. */
  datatype Value = Str(s: string) | Details(d: AuthDetails)

  /** The keys of `extracted_data`. */
  const InfoKeys: seq<string> := [
    "Claim Number", "Name of the Patient", "Policy No", "Hospital Address", "Rohini ID", "Letter Type",
    "MD ID No", "Date of Admission", "Date of Discharge", "Room Category", "Provisional Diagnosis",
    "Proposed Treatment", "Authorization Details", "Remarks"]

  /** The initial `extracted_data`: "null" everywhere but the empty authorization details. */
  const Defaults: map<string, Value> :=
    map k | k in InfoKeys :: if k == "Authorization Details" then Details(NoDetails) else Str("null")

  /** The keys the table, the extractors and the layout fill are keys of the record. */
  lemma KeysAreInfoKeys()
    ensures forall k :: k in TableKeys ==> k in InfoKeys
    ensures "Hospital Address" in InfoKeys && "Authorization Details" in InfoKeys && "Remarks" in InfoKeys
    ensures "Claim Number" in InfoKeys && "Letter Type" in InfoKeys && "MD ID No" in InfoKeys && "Rohini ID" in InfoKeys
  {
  }

  /** The four keys set after the table are not table keys. */
  lemma LateKeysNotTableKeys()
    ensures "Claim Number" !in TableKeys && "Letter Type" !in TableKeys && "MD ID No" !in TableKeys && "Rohini ID" !in TableKeys
    ensures "Hospital Address" !in TableKeys && "Authorization Details" !in TableKeys && "Remarks" !in TableKeys
  {
  }

  /** `base.update(data)` */
  function Merge(base: map<string, Value>, data: map<string, string>): (r: map<string, Value>)
    ensures r.Keys == base.Keys + data.Keys
    ensures forall k :: k in data ==> r[k] == Str(data[k])
    ensures forall k :: k in base && k !in data ==> r[k] == base[k]
  {
    map k | k in base.Keys + data.Keys :: if k in data then Str(data[k]) else base[k]
  }

  /** `([^\s\n]+)` */
  const TokenClass: CharClass := Negate(Union(Space, Chars("\n")))

  const ClaimPattern: Pattern := Plain([Lit("Claim"), Ws1, Lit("Number")] + Colon + [Cap(1, TokenClass, 1, Unbounded, true)])
  const CashlessPattern: Pattern := Plain(PhraseItems(["Cashless", "Authorisation", "Letter"]))
  const MdIdPattern: Pattern := Plain([Lit("MD ID No")] + Colon + [Cap(1, TokenClass, 1, Unbounded, true)])
  const RohiniPattern: Pattern := Plain([Lit("Rohini"), Ws1, Lit("ID")] + Colon + [Cap(1, TokenClass, 1, Unbounded, true)])

  /** `match.group(1).strip()` of a first-token pattern, if it matches. */
  function TokenOf(p: Pattern, text: string): Option<string>
  {
    var m := Search(p, text);
    if m.Some? then Some(Strip(GroupText(m.value, text, 1))) else None
  }

  /** `if match: extracted_data[key] = value` */
  function StoreIf(d: map<string, Value>, key: string, v: Option<string>): (r: map<string, Value>)
    ensures r.Keys == d.Keys + (if v.Some? then {key} else {})
    ensures key in r ==> r[key] == (if v.Some? then Str(v.value) else d[key])
    ensures forall k :: k in d && k != key ==> r[k] == d[k]
  {
    if v.Some? then d[key := Str(v.value)] else d
  }

  /** `if re.search(r"Cashless\s+Authorisation\s+Letter", text): extracted_data["Letter Type"] = "Approval"` */
  function LetterTyped(d: map<string, Value>, t: string): (r: map<string, Value>)
    ensures r.Keys == d.Keys + (if Finds(CashlessPattern, t) then {"Letter Type"} else {})
    ensures "Letter Type" in r ==> r["Letter Type"] == (if Finds(CashlessPattern, t) then Str("Approval") else d["Letter Type"])
    ensures forall k :: k in d && k != "Letter Type" ==> r[k] == d[k]
  {
    if Finds(CashlessPattern, t) then d["Letter Type" := Str("Approval")] else d
  }

  /** The stores after the table, once the authorization details are known. */
  function Completed(d: map<string, Value>, auth: AuthDetails, t: string): map<string, Value>
  {
    var d2 := d["Authorization Details" := Details(auth)]["Remarks" := Str(AuthorizationRemarks(t))];
    var d3 := StoreIf(d2, "Claim Number", TokenOf(ClaimPattern, t));
    var d4 := LetterTyped(d3, t);
    var d5 := StoreIf(d4, "MD ID No", TokenOf(MdIdPattern, t));
    StoreIf(d5, "Rohini ID", TokenOf(RohiniPattern, t))
  }

  /** The keys stored after the table are distinct. */
  lemma LateKeysDistinct()
    ensures "Authorization Details" != "Remarks" && "Authorization Details" != "Claim Number"
    ensures "Authorization Details" != "Letter Type" && "Authorization Details" != "MD ID No" && "Authorization Details" != "Rohini ID"
    ensures "Remarks" != "Claim Number" && "Remarks" != "Letter Type" && "Remarks" != "MD ID No" && "Remarks" != "Rohini ID"
    ensures "Claim Number" != "Letter Type" && "Claim Number" != "MD ID No" && "Claim Number" != "Rohini ID"
    ensures "Letter Type" != "MD ID No" && "Letter Type" != "Rohini ID" && "MD ID No" != "Rohini ID"
  {
  }

  /** The record once "Hospital Address" is set and the table merged. */
  function Started(address: string, text: string): map<string, Value>
  {
    Merge(Defaults["Hospital Address" := Str(address)], TableData(text))
  }

  /**
   * `extract_info_from_pdf` once the page's text (None when the page has none) and the
   * address layout are known. The `except` keeps what was stored before the exception:
   * no text raises in `extract_table_data`, an unparsable amount in `extract_authorization_details`.
   */
  function Info(text: Option<string>, address: string): map<string, Value>
  {
    if text.None? then Defaults["Hospital Address" := Str(address)]
    else
      var auth := AuthorizationDetails(text.value);
      if auth.Err? then Started(address, text.value) else Completed(Started(address, text.value), auth.value, text.value)
  }

  /** One `match = re.search(...); if match: extracted_data[key] = match.group(1).strip()`. */
  method StoreToken(d: map<string, Value>, key: string, p: Pattern, t: string) returns (r: map<string, Value>)
    ensures r == StoreIf(d, key, TokenOf(p, t))
  {
    r := d;
    var m := Search(p, t);
    if m.Some? {
      r := r[key := Str(Strip(GroupText(m.value, t, 1)))];
    }
  }

  method ExtractInfo(text: Option<string>, address: string) returns (data: map<string, Value>)
    ensures data == Info(text, address)
  {
    data := Defaults;
    data := data["Hospital Address" := Str(address)];
    if text.None? {
      return;
    }
    var t := text.value;
    data := Merge(data, TableData(t));
    var auth := ExtractAuthorizationDetails(t);
    if auth.Err? {
      return;
    }
    data := data["Authorization Details" := Details(auth.value)];
    data := data["Remarks" := Str(AuthorizationRemarks(t))];
    data := StoreToken(data, "Claim Number", ClaimPattern, t);
    var m := Search(CashlessPattern, t);
    if m.Some? {
      data := data["Letter Type" := Str("Approval")];
    }
    data := StoreToken(data, "MD ID No", MdIdPattern, t);
    data := StoreToken(data, "Rohini ID", RohiniPattern, t);
  }

  /** The stores after the table add the details and the remarks to the keys. */
  lemma CompletedKeys(d: map<string, Value>, auth: AuthDetails, t: string)
    requires "Claim Number" in d && "Letter Type" in d && "MD ID No" in d && "Rohini ID" in d
    ensures Completed(d, auth, t).Keys == d.Keys + {"Authorization Details", "Remarks"}
  {
  }

  /** The details and the remarks are the extractors'. */
  lemma CompletedDetails(d: map<string, Value>, auth: AuthDetails, t: string)
    ensures "Authorization Details" in Completed(d, auth, t) && Completed(d, auth, t)["Authorization Details"] == Details(auth)
    ensures "Remarks" in Completed(d, auth, t) && Completed(d, auth, t)["Remarks"] == Str(AuthorizationRemarks(t))
  {
    LateKeysDistinct();
    var details, remarks := Details(auth), Str(AuthorizationRemarks(t));
    var d2 := d["Authorization Details" := details]["Remarks" := remarks];
    assert d2["Authorization Details"] == details && d2["Remarks"] == remarks;
    var d3 := StoreIf(d2, "Claim Number", TokenOf(ClaimPattern, t));
    assert d3["Authorization Details"] == details && d3["Remarks"] == remarks;
    var d4 := LetterTyped(d3, t);
    assert d4["Authorization Details"] == details && d4["Remarks"] == remarks;
    var d5 := StoreIf(d4, "MD ID No", TokenOf(MdIdPattern, t));
    assert d5["Authorization Details"] == details && d5["Remarks"] == remarks;
    var d6 := StoreIf(d5, "Rohini ID", TokenOf(RohiniPattern, t));
    assert d6["Authorization Details"] == details && d6["Remarks"] == remarks;
    assert Completed(d, auth, t) == d6;
  }

  /** "Letter Type" is "Approval" when the phrase occurs and is otherwise left as it was. */
  lemma CompletedLetterType(d: map<string, Value>, auth: AuthDetails, t: string)
    requires "Letter Type" in d
    ensures "Letter Type" in Completed(d, auth, t)
    ensures Completed(d, auth, t)["Letter Type"] == (if Finds(CashlessPattern, t) then Str("Approval") else d["Letter Type"])
  {
    LateKeysDistinct();
    var d2 := d["Authorization Details" := Details(auth)]["Remarks" := Str(AuthorizationRemarks(t))];
    assert d2["Letter Type"] == d["Letter Type"];
    var d3 := StoreIf(d2, "Claim Number", TokenOf(ClaimPattern, t));
    assert d3["Letter Type"] == d["Letter Type"];
    var d4 := LetterTyped(d3, t);
    var d5 := StoreIf(d4, "MD ID No", TokenOf(MdIdPattern, t));
    assert d5["Letter Type"] == d4["Letter Type"];
    assert Completed(d, auth, t) == StoreIf(d5, "Rohini ID", TokenOf(RohiniPattern, t));
  }

  /** A first-token key holds its token when the pattern matched and is otherwise left as it was. */
  lemma CompletedTokens(d: map<string, Value>, auth: AuthDetails, t: string)
    requires "Claim Number" in d && "MD ID No" in d && "Rohini ID" in d
    ensures var r := Completed(d, auth, t);
            "Claim Number" in r && "MD ID No" in r && "Rohini ID" in r &&
            r["Claim Number"] == (if TokenOf(ClaimPattern, t).Some? then Str(TokenOf(ClaimPattern, t).value) else d["Claim Number"]) &&
            r["MD ID No"] == (if TokenOf(MdIdPattern, t).Some? then Str(TokenOf(MdIdPattern, t).value) else d["MD ID No"]) &&
            r["Rohini ID"] == (if TokenOf(RohiniPattern, t).Some? then Str(TokenOf(RohiniPattern, t).value) else d["Rohini ID"])
  {
    LateKeysDistinct();
    var claim, md, rohini := TokenOf(ClaimPattern, t), TokenOf(MdIdPattern, t), TokenOf(RohiniPattern, t);
    var d2 := d["Authorization Details" := Details(auth)]["Remarks" := Str(AuthorizationRemarks(t))];
    assert d2["Claim Number"] == d["Claim Number"] && d2["MD ID No"] == d["MD ID No"] && d2["Rohini ID"] == d["Rohini ID"];
    var d3 := StoreIf(d2, "Claim Number", claim);
    assert d3["MD ID No"] == d["MD ID No"] && d3["Rohini ID"] == d["Rohini ID"];
    var d4 := LetterTyped(d3, t);
    assert d4["Claim Number"] == d3["Claim Number"] && d4["MD ID No"] == d["MD ID No"] && d4["Rohini ID"] == d["Rohini ID"];
    var d5 := StoreIf(d4, "MD ID No", md);
    assert d5["Claim Number"] == d3["Claim Number"] && d5["Rohini ID"] == d["Rohini ID"];
    var d6 := StoreIf(d5, "Rohini ID", rohini);
    assert d6["Claim Number"] == d3["Claim Number"] && d6["MD ID No"] == d5["MD ID No"];
    assert Completed(d, auth, t) == d6;
  }

  /** The started record has the record's keys, the address, the table's values and otherwise the defaults. */
  lemma StartedIs(address: string, text: string)
    ensures Started(address, text).Keys == Defaults.Keys
    ensures "Hospital Address" in Started(address, text) && Started(address, text)["Hospital Address"] == Str(address)
    ensures forall k :: k in TableData(text) ==> Started(address, text)[k] == Str(TableData(text)[k])
    ensures forall k :: k in Defaults && k != "Hospital Address" && k !in TableData(text) ==> Started(address, text)[k] == Defaults[k]
  {
    KeysAreInfoKeys();
    LateKeysNotTableKeys();
    TableDataIs(text);
  }

  /** The record's defaults for the keys set after the table. */
  lemma DefaultsLate()
    ensures Defaults["Letter Type"] == Str("null") && Defaults["Claim Number"] == Str("null")
    ensures Defaults["MD ID No"] == Str("null") && Defaults["Rohini ID"] == Str("null")
  {
    KeysAreInfoKeys();
  }

  /** The record always has the fourteen keys of its defaults. */
  lemma InfoHasKeys(text: Option<string>, address: string)
    ensures Info(text, address).Keys == Defaults.Keys
  {
    KeysAreInfoKeys();
    if text.Some? {
      StartedIs(address, text.value);
      if AuthorizationDetails(text.value).Ok? {
        CompletedKeys(Started(address, text.value), AuthorizationDetails(text.value).value, text.value);
      }
    }
  }

  /** A table key's value in the started record is not one set after the table. */
  lemma StartedLate(address: string, t: string)
    ensures var d := Started(address, t);
            "Letter Type" in d && d["Letter Type"] == Str("null") && "Claim Number" in d && d["Claim Number"] == Str("null") &&
            "MD ID No" in d && d["MD ID No"] == Str("null") && "Rohini ID" in d && d["Rohini ID"] == Str("null")
  {
    KeysAreInfoKeys();
    LateKeysNotTableKeys();
    DefaultsLate();
    TableDataIs(t);
    StartedIs(address, t);
  }

  /**
   * "Letter Type" is "Approval" exactly when "Cashless Authorisation Letter" occurs (and
   * nothing raised before it was looked for), and "null" otherwise.
   */
  lemma InfoLetterType(text: Option<string>, address: string)
    ensures "Letter Type" in Info(text, address)
    ensures Info(text, address)["Letter Type"] == Str("Approval") <==>
              text.Some? && AuthorizationDetails(text.value).Ok? && Finds(CashlessPattern, text.value)
    ensures Info(text, address)["Letter Type"] in {Str("Approval"), Str("null")}
  {
    if text.Some? {
      InfoLetterTypeOf(text.value, address);
    } else {
      KeysAreInfoKeys();
      DefaultsLate();
      assert Info(text, address)["Letter Type"] == Defaults["Letter Type"];
    }
  }

  /** With text, "Letter Type" is "Approval" when the details parsed and the title occurs, else "null". */
  lemma InfoLetterTypeOf(t: string, address: string)
    ensures "Letter Type" in Info(Some(t), address)
    ensures Info(Some(t), address)["Letter Type"] ==
              if AuthorizationDetails(t).Ok? && Finds(CashlessPattern, t) then Str("Approval") else Str("null")
  {
    var d := Started(address, t);
    StartedLate(address, t);
    var a := AuthorizationDetails(t);
    if a.Ok? {
      var r := Completed(d, a.value, t);
      assert Info(Some(t), address) == r;
      CompletedLetterType(d, a.value, t);
    } else {
      assert Info(Some(t), address) == d;
    }
  }

  /** "Hospital Address" is the layout's address whatever happens to the text. */
  lemma InfoAddress(text: Option<string>, address: string)
    ensures "Hospital Address" in Info(text, address) && Info(text, address)["Hospital Address"] == Str(address)
  {
    if text.Some? {
      var t := text.value;
      var d := Started(address, t);
      StartedIs(address, t);
      var a := AuthorizationDetails(t);
      if a.Ok? {
        CompletedAddress(d, a.value, t);
        assert Info(text, address) == Completed(d, a.value, t);
      } else {
        assert Info(text, address) == d;
      }
    }
  }

  /** Once nothing raised, the details and remarks are the extractors'. */
  lemma InfoDetails(text: string, address: string)
    requires AuthorizationDetails(text).Ok?
    ensures "Authorization Details" in Info(Some(text), address)
    ensures Info(Some(text), address)["Authorization Details"] == Details(AuthorizationDetails(text).value)
    ensures "Remarks" in Info(Some(text), address) && Info(Some(text), address)["Remarks"] == Str(AuthorizationRemarks(text))
  {
    assert Info(Some(text), address) == Completed(Started(address, text), AuthorizationDetails(text).value, text);
    CompletedDetails(Started(address, text), AuthorizationDetails(text).value, text);
  }

  /** The stores after the table leave the address alone. */
  lemma CompletedAddress(d: map<string, Value>, auth: AuthDetails, t: string)
    requires "Hospital Address" in d
    ensures "Hospital Address" in Completed(d, auth, t) && Completed(d, auth, t)["Hospital Address"] == d["Hospital Address"]
  {
    var d2 := d["Authorization Details" := Details(auth)]["Remarks" := Str(AuthorizationRemarks(t))];
    assert d2["Hospital Address"] == d["Hospital Address"];
    var d3 := StoreIf(d2, "Claim Number", TokenOf(ClaimPattern, t));
    assert d3["Hospital Address"] == d["Hospital Address"];
    var d4 := LetterTyped(d3, t);
    assert d4["Hospital Address"] == d["Hospital Address"];
    var d5 := StoreIf(d4, "MD ID No", TokenOf(MdIdPattern, t));
    assert d5["Hospital Address"] == d["Hospital Address"];
    assert Completed(d, auth, t) == StoreIf(d5, "Rohini ID", TokenOf(RohiniPattern, t));
  }

  /** The three first-token patterns capture group 1 only as a whitespace-free run. */
  lemma TokenCaptures()
    ensures AllCaptureClass(ClaimPattern.items, 1, TokenClass, 1)
    ensures AllCaptureClass(MdIdPattern.items, 1, TokenClass, 1)
    ensures AllCaptureClass(RohiniPattern.items, 1, TokenClass, 1)
  {
    assert forall j :: 0 <= j < |Colon| ==> ItemCapturesClass(Colon[j], 1, TokenClass, 1);
  }

  /** A first-token value has no whitespace. */
  lemma TokenNoSpace(p: Pattern, text: string)
    requires AllCaptureClass(p.items, 1, TokenClass, 1)
    ensures TokenOf(p, text).Some? ==> NoSpace(TokenOf(p, text).value)
  {
    var m := Search(p, text);
    if m.Some? {
      var g := GroupText(m.value, text, 1);
      if 1 in m.value.caps {
        SearchCapturedText(p, text, 1, TokenClass, 1);
        forall j | 0 <= j < |g| ensures !IsSpace(g[j]) {
          var c := g[j];
          assert InClass(c, Negate(Union(Space, Chars("\n"))), p.ignoreCase);
          assert !InClass(c, Union(Space, Chars("\n")), p.ignoreCase);
          assert !InClass(c, Space, p.ignoreCase);
        }
      }
      assert IsStripped(g);
      StripStripped(g);
    }
  }

  /** The key is there, holding "null" or a whitespace-free token. */
  predicate TokenOrNull(r: map<string, Value>, key: string)
  {
    key in r && r[key].Str? && (r[key].s == "null" || NoSpace(r[key].s))
  }

  /** From "null" defaults, the stores after the table leave each token key "null" or a whitespace-free token. */
  lemma CompletedTokensShaped(d: map<string, Value>, auth: AuthDetails, t: string)
    requires "Claim Number" in d && "MD ID No" in d && "Rohini ID" in d
    requires d["Claim Number"] == Str("null") && d["MD ID No"] == Str("null") && d["Rohini ID"] == Str("null")
    ensures TokenOrNull(Completed(d, auth, t), "Claim Number")
    ensures TokenOrNull(Completed(d, auth, t), "MD ID No")
    ensures TokenOrNull(Completed(d, auth, t), "Rohini ID")
  {
    CompletedTokens(d, auth, t);
    TokenCaptures();
    TokenNoSpace(ClaimPattern, t);
    TokenNoSpace(MdIdPattern, t);
    TokenNoSpace(RohiniPattern, t);
  }

  /** With text, the token keys are "null" or whitespace-free tokens, whether or not the details parsed. */
  lemma InfoTokensOf(t: string, address: string)
    ensures TokenOrNull(Info(Some(t), address), "Claim Number")
    ensures TokenOrNull(Info(Some(t), address), "MD ID No")
    ensures TokenOrNull(Info(Some(t), address), "Rohini ID")
  {
    var d := Started(address, t);
    StartedLate(address, t);
    var a := AuthorizationDetails(t);
    InfoCases(t, address);
    if a.Ok? {
      CompletedTokensShaped(d, a.value, t);
    }
  }

  /** With text, the record is the started one, completed when the details parsed. */
  lemma InfoCases(t: string, address: string)
    ensures AuthorizationDetails(t).Ok? ==> Info(Some(t), address) == Completed(Started(address, t), AuthorizationDetails(t).value, t)
    ensures AuthorizationDetails(t).Err? ==> Info(Some(t), address) == Started(address, t)
  {
  }

  /** Claim Number, MD ID No and Rohini ID are each "null" or a single whitespace-free token. */
  lemma InfoTokens(text: Option<string>, address: string)
    ensures TokenOrNull(Info(text, address), "Claim Number")
    ensures TokenOrNull(Info(text, address), "MD ID No")
    ensures TokenOrNull(Info(text, address), "Rohini ID")
  {
    if text.Some? {
      InfoTokensOf(text.value, address);
    } else {
      KeysAreInfoKeys();
      DefaultsLate();
      var r := Info(text, address);
      assert r["Claim Number"] == Defaults["Claim Number"] && r["MD ID No"] == Defaults["MD ID No"] && r["Rohini ID"] == Defaults["Rohini ID"];
    }
  }
}
