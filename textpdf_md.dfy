/**
 * textpdf_md.py: the MD India approval letter read from the text of all its pages into a
 * dictionary of thirteen keys that start as None. The Letter Type and the UHID Number are
 * fixed; the amounts are rendered "Rs. X"; "Date & Time" is a list of every date-time pair in
 * the text; the remarks lie between two markers found by index.
 */
module TextPdfMd {
  import opened Common
  import opened Text
  import opened Regex
  import S = SpamMd

  // ---------------------------------------------------------------- the record's values

  /** A value of `data`: None, a string, or the list of date-time strings. */
  datatype Value = Null | Str(s: string) | List(items: seq<string>)

  /** The keys of `data`, in the order of its initialisation. */
  const Keys: seq<string> := [
    "AL Number", "Approved Amount", "Date & Time", "Date of Admission", "Date of Discharge", "Hospital Address",
    "Letter Type", "Name of the Patient", "Policy No", "Policy Period", "Remarks", "Total Bill Amount", "UHID Number"]

  const UhidSentence: string := "Not explicitly mentioned in the document"

  /** `data` before the searches: None everywhere but the two fixed entries. */
  function Initial(): map<string, Value>
  {
    (map k | k in Keys :: Null)["Letter Type" := Str("Approval")]["UHID Number" := Str(UhidSentence)]
  }

  /** `if match: data[key] = value` */
  function Put(d: map<string, Value>, key: string, v: Option<string>): map<string, Value>
  {
    if v.Some? then d[key := Str(v.value)] else d
  }

  /** `f"Rs. {x}"` of a value that was found. */
  function Rupees(v: Option<string>): Option<string>
  {
    if v.Some? then Some("Rs. " + v.value) else None
  }

  // ---------------------------------------------------------------- the patterns

  /** `Claim Number\s*:\s*(\w+)` */
  const ClaimPattern: Pattern := S.Plain([Lit("Claim Number")] + S.Colon + [Cap(1, Word, 1, Unbounded, true)])

  /** `Total Authorized Amount:\s*Rs\. ([\d,]+)`, IGNORECASE. */
  const AmountPattern: Pattern := CI([Lit("Total Authorized Amount:"), Ws0, Lit("Rs. "), Cap(1, S.DigitComma, 1, Unbounded, true)])

  /** `Total Authorized Amount:\s*[\w\s]+Only\.\s*\(Rs\. ([\d,]+)\)`: the amount in words first. */
  const AmountInWordsPattern: Pattern := S.Plain([
    Lit("Total Authorized Amount:"), Ws0, Rep(Union(Word, Space), 1, Unbounded, true), Lit("Only."), Ws0, Lit("(Rs. "),
    Cap(1, S.DigitComma, 1, Unbounded, true), Lit(")")])

  /** `(\d{2}/\d{2}/\d{4})\s+(\d{1,2}:\d{2}:\d{2}[AP]M)` */
  const DateTimePattern: Pattern := S.Plain([
    S.DateGroup(1), Ws1,
    Group(2, [Rep(Digit, 1, AtMost(2), true), Lit(":"), Rep(Digit, 2, AtMost(2), true), Lit(":"), Rep(Digit, 2, AtMost(2), true),
              Rep(Chars("AP"), 1, AtMost(1), true), Lit("M")])])

  /** `To,\s*The Medical Director,\s*([^\n]+)\s*Near\s*([^\n]+)` */
  const HospitalPattern: Pattern := S.Plain([
    Lit("To,"), Ws0, Lit("The Medical Director,"), Ws0, Cap(1, S.LineChar, 1, Unbounded, true), Ws0, Lit("Near"), Ws0,
    Cap(2, S.LineChar, 1, Unbounded, true)])

  /** `[^\n|]` */
  const CellChar: CharClass := Negate(Chars("\n|"))

  /** `caption\s*[|:]\s*([^\n|]+)`: a value that ends at the line's end or at the next cell. */
  function CellPattern(caption: string): Pattern
  {
    S.Plain([Lit(caption), Ws0, Rep(Chars("|:"), 1, AtMost(1), true), Ws0, Cap(1, CellChar, 1, Unbounded, true)])
  }

  const RemarksLabel: string := "Authorisation Remarks :"
  const RemarksEnd: string := "Head Office:"

  // ---------------------------------------------------------------- the fields

  /** `match.group(1).strip()` of the first match, if `p` matches. */
  function StrippedOf(p: Pattern, text: string): Option<string>
  {
    var g := S.Group1(p, text, 1);
    if g.Some? then Some(Strip(g.value)) else None
  }

  /** The authorized amount: the direct form, and only when it is missing the form after the amount in words. */
  function AmountOf(text: string): Option<string>
  {
    if Finds(AmountPattern, text) then S.Group1(AmountPattern, text, 1) else S.Group1(AmountInWordsPattern, text, 1)
  }

  /** `[f"{dt[0]} {dt[1]}" for dt in re.findall(...)]` over the matches `ms`. */
  function Pairs(ms: seq<Match>, text: string): (r: seq<string>)
    requires forall j :: 0 <= j < |ms| ==> ValidMatch(ms[j], text)
    ensures |r| == |ms|
  {
    if |ms| == 0 then []
    else [GroupText(ms[0], text, 1) + " " + GroupText(ms[0], text, 2)] + Pairs(ms[1..], text)
  }

  function DateTimes(text: string): seq<string>
  {
    Pairs(FindAll(DateTimePattern, text), text)
  }

  /** `f"{m.group(1).strip()}, Near {m.group(2).strip()}"` */
  function HospitalOf(text: string): Option<string>
  {
    var m := Search(HospitalPattern, text);
    if m.Some? then Some(Strip(GroupText(m.value, text, 1)) + ", Near " + Strip(GroupText(m.value, text, 2))) else None
  }

  /**
   * The remarks: when the label occurs at an index greater than 0 and "Head Office:" after it,
   * the text between them with every copy of the label removed, stripped and whitespace-collapsed.
   */
  function RemarksOf(text: string): Option<string>
  {
    var start := Find(text, RemarksLabel);
    if start > 0 then
      var end := FindFrom(text, RemarksEnd, start);
      if end > start then Some(Collapse(Strip(Replace(text[start..end], RemarksLabel, "")))) else None
    else None
  }

  /** What the searches in the text found. */
  datatype Searched = Searched(
    al: Option<string>, amount: Option<string>, dateTimes: seq<string>, admission: Option<string>,
    discharge: Option<string>, hospital: Option<string>, name: Option<string>, policy: Option<string>,
    period: Option<string>, remarks: Option<string>, bill: Option<string>)

  function SearchedIn(text: string): Searched
  {
    Searched(StrippedOf(ClaimPattern, text), AmountOf(text), DateTimes(text), S.Group1(S.AdmissionPattern, text, 1),
             S.Group1(S.DischargePattern, text, 1), HospitalOf(text), StrippedOf(CellPattern("Patient Name"), text),
             StrippedOf(CellPattern("Policy Number"), text), StrippedOf(CellPattern("Policy Period"), text),
             RemarksOf(text), S.Group1(S.BillPattern, text, 1))
  }

  /** The stores up to the dates. */
  function Earlier(d: map<string, Value>, f: Searched): map<string, Value>
  {
    var d1 := Put(d, "AL Number", f.al);
    var d2 := Put(d1, "Approved Amount", Rupees(f.amount));
    var d3 := if |f.dateTimes| > 0 then d2["Date & Time" := List(f.dateTimes)] else d2;
    var d4 := Put(d3, "Date of Admission", f.admission);
    Put(d4, "Date of Discharge", f.discharge)
  }

  /** The stores from the hospital's address on. */
  function Later(d: map<string, Value>, f: Searched): map<string, Value>
  {
    var d1 := Put(d, "Hospital Address", f.hospital);
    var d2 := Put(d1, "Name of the Patient", f.name);
    var d3 := Put(d2, "Policy No", f.policy);
    var d4 := Put(d3, "Policy Period", f.period);
    var d5 := Put(d4, "Remarks", f.remarks);
    Put(d5, "Total Bill Amount", Rupees(f.bill))
  }

  /** `extract_pdf_data` once the text of its pages, each followed by a newline, is known. */
  function PdfData(text: string): map<string, Value>
  {
    var f := SearchedIn(text);
    Later(Earlier(Initial(), f), f)
  }

  // ---------------------------------------------------------------- extract_pdf_data

  method ExtractPdfData(text: string) returns (data: map<string, Value>)
    ensures data == PdfData(text)
  {
    data := map k | k in Keys :: Null;
    data := data["Letter Type" := Str("Approval")];
    data := data["UHID Number" := Str(UhidSentence)];
    data := StoreEarlier(data, text);
    data := StoreLater(data, text);
  }

  /** `if match: data[key] = match.group(n)` */
  method StoreGroup(d: map<string, Value>, key: string, p: Pattern, text: string) returns (r: map<string, Value>)
    ensures r == Put(d, key, S.Group1(p, text, 1))
  {
    r := d;
    var m := Search(p, text);
    if m.Some? {
      r := r[key := Str(GroupText(m.value, text, 1))];
    }
  }

  /** `if match: data[key] = match.group(1).strip()` */
  method StoreStripped(d: map<string, Value>, key: string, p: Pattern, text: string) returns (r: map<string, Value>)
    ensures r == Put(d, key, StrippedOf(p, text))
  {
    r := d;
    var m := Search(p, text);
    if m.Some? {
      r := r[key := Str(Strip(GroupText(m.value, text, 1)))];
    }
  }

  method StoreEarlier(d: map<string, Value>, text: string) returns (data: map<string, Value>)
    ensures data == Earlier(d, SearchedIn(text))
  {
    data := StoreStripped(d, "AL Number", ClaimPattern, text);
    data := StoreAmount(data, text);
    data := StoreDateTimes(data, text);
    data := StoreGroup(data, "Date of Admission", S.AdmissionPattern, text);
    data := StoreGroup(data, "Date of Discharge", S.DischargePattern, text);
  }

  /** The two amount searches and the store of `f"Rs. {amount_match.group(1)}"`. */
  method StoreAmount(d: map<string, Value>, text: string) returns (data: map<string, Value>)
    ensures data == Put(d, "Approved Amount", Rupees(AmountOf(text)))
  {
    data := d;
    var amount := Search(AmountPattern, text);
    if amount.None? {
      amount := Search(AmountInWordsPattern, text);
    }
    if amount.Some? {
      data := data["Approved Amount" := Str("Rs. " + GroupText(amount.value, text, 1))];
    }
  }

  method StoreDateTimes(d: map<string, Value>, text: string) returns (data: map<string, Value>)
    ensures data == (if |DateTimes(text)| > 0 then d["Date & Time" := List(DateTimes(text))] else d)
  {
    data := d;
    var dateTimes := FindAll(DateTimePattern, text);
    if |dateTimes| > 0 {
      data := data["Date & Time" := List(Pairs(dateTimes, text))];
    }
  }

  method StoreLater(d: map<string, Value>, text: string) returns (data: map<string, Value>)
    ensures data == Later(d, SearchedIn(text))
  {
    data := StoreHospital(d, text);
    data := StoreStripped(data, "Name of the Patient", CellPattern("Patient Name"), text);
    data := StoreStripped(data, "Policy No", CellPattern("Policy Number"), text);
    data := StoreStripped(data, "Policy Period", CellPattern("Policy Period"), text);
    data := StoreRemarks(data, text);
    var bill := Search(S.BillPattern, text);
    if bill.Some? {
      data := data["Total Bill Amount" := Str("Rs. " + GroupText(bill.value, text, 1))];
    }
  }

  method StoreHospital(d: map<string, Value>, text: string) returns (data: map<string, Value>)
    ensures data == Put(d, "Hospital Address", HospitalOf(text))
  {
    data := d;
    var hospital := Search(HospitalPattern, text);
    if hospital.Some? {
      var m := hospital.value;
      data := data["Hospital Address" := Str(Strip(GroupText(m, text, 1)) + ", Near " + Strip(GroupText(m, text, 2)))];
    }
  }

  /** The remarks by `text.find`: the label's index, then "Head Office:" from there on. */
  method StoreRemarks(d: map<string, Value>, text: string) returns (data: map<string, Value>)
    ensures data == Put(d, "Remarks", RemarksOf(text))
  {
    data := d;
    var remarksStart := Find(text, RemarksLabel);
    if remarksStart > 0 {
      var remarksEnd := FindFrom(text, RemarksEnd, remarksStart);
      if remarksEnd > remarksStart {
        var remarks := Strip(Replace(text[remarksStart..remarksEnd], RemarksLabel, ""));
        data := data["Remarks" := Str(Collapse(remarks))];
      }
    }
  }

  // ---------------------------------------------------------------- what the record holds

  /** A value that was found, or None. */
  function OrNone(v: Option<string>): Value
  {
    if v.Some? then Str(v.value) else Null
  }

  /** `d` holds the thirteen keys of the record. */
  predicate Full(d: map<string, Value>)
  {
    "AL Number" in d && "Approved Amount" in d && "Date & Time" in d && "Date of Admission" in d &&
    "Date of Discharge" in d && "Hospital Address" in d && "Letter Type" in d && "Name of the Patient" in d &&
    "Policy No" in d && "Policy Period" in d && "Remarks" in d && "Total Bill Amount" in d && "UHID Number" in d
  }

  lemma PutIs(d: map<string, Value>, key: string, v: Option<string>)
    requires key in d
    ensures Put(d, key, v).Keys == d.Keys && Put(d, key, v)[key] == (if v.Some? then Str(v.value) else d[key])
    ensures forall k :: k in d && k != key ==> Put(d, key, v)[k] == d[k]
  {
  }

  /** Before the searches the record has exactly the thirteen keys. */
  lemma InitialKeys()
    ensures Initial().Keys == set k | k in Keys
  {
    var base := map k | k in Keys :: Null;
    assert Keys[6] == "Letter Type" && Keys[12] == "UHID Number";
    assert "Letter Type" in base.Keys && "UHID Number" in base.Keys;
  }

  /** Before the searches: Letter Type and UHID Number hold their fixed values, every other key None. */
  lemma InitialIs()
    ensures var d := Initial();
            Full(d) &&
            d["Letter Type"] == Str("Approval") && d["UHID Number"] == Str(UhidSentence) &&
            d["AL Number"] == Null && d["Approved Amount"] == Null && d["Date & Time"] == Null &&
            d["Date of Admission"] == Null && d["Date of Discharge"] == Null && d["Hospital Address"] == Null &&
            d["Name of the Patient"] == Null && d["Policy No"] == Null && d["Policy Period"] == Null &&
            d["Remarks"] == Null && d["Total Bill Amount"] == Null
  {
    var base := map k | k in Keys :: Null;
    assert Keys[0] in base && Keys[1] in base && Keys[2] in base && Keys[3] in base && Keys[4] in base;
    assert Keys[5] in base && Keys[7] in base && Keys[8] in base && Keys[9] in base && Keys[10] in base;
    assert Keys[11] in base;
  }

  /** The stores up to the dates write their five keys only: a value found, or the earlier one. */
  lemma EarlierIs(d: map<string, Value>, f: Searched)
    requires Full(d)
    ensures var r := Earlier(d, f);
            Full(r) && r.Keys == d.Keys &&
            r["AL Number"] == (if f.al.Some? then Str(f.al.value) else d["AL Number"]) &&
            r["Approved Amount"] == (if f.amount.Some? then Str("Rs. " + f.amount.value) else d["Approved Amount"]) &&
            r["Date & Time"] == (if |f.dateTimes| > 0 then List(f.dateTimes) else d["Date & Time"]) &&
            r["Date of Admission"] == (if f.admission.Some? then Str(f.admission.value) else d["Date of Admission"]) &&
            r["Date of Discharge"] == (if f.discharge.Some? then Str(f.discharge.value) else d["Date of Discharge"]) &&
            r["Hospital Address"] == d["Hospital Address"] && r["Letter Type"] == d["Letter Type"] &&
            r["Name of the Patient"] == d["Name of the Patient"] && r["Policy No"] == d["Policy No"] &&
            r["Policy Period"] == d["Policy Period"] && r["Remarks"] == d["Remarks"] &&
            r["Total Bill Amount"] == d["Total Bill Amount"] && r["UHID Number"] == d["UHID Number"]
  {
    var d1 := Put(d, "AL Number", f.al);
    PutIs(d, "AL Number", f.al);
    var d2 := Put(d1, "Approved Amount", Rupees(f.amount));
    PutIs(d1, "Approved Amount", Rupees(f.amount));
    var d3 := if |f.dateTimes| > 0 then d2["Date & Time" := List(f.dateTimes)] else d2;
    var d4 := Put(d3, "Date of Admission", f.admission);
    PutIs(d3, "Date of Admission", f.admission);
    PutIs(d4, "Date of Discharge", f.discharge);
  }

  /** The stores from the address on write their six keys only: a value found, or the earlier one. */
  lemma LaterIs(d: map<string, Value>, f: Searched)
    requires Full(d)
    ensures var r := Later(d, f);
            Full(r) && r.Keys == d.Keys &&
            r["Hospital Address"] == (if f.hospital.Some? then Str(f.hospital.value) else d["Hospital Address"]) &&
            r["Name of the Patient"] == (if f.name.Some? then Str(f.name.value) else d["Name of the Patient"]) &&
            r["Policy No"] == (if f.policy.Some? then Str(f.policy.value) else d["Policy No"]) &&
            r["Policy Period"] == (if f.period.Some? then Str(f.period.value) else d["Policy Period"]) &&
            r["Remarks"] == (if f.remarks.Some? then Str(f.remarks.value) else d["Remarks"]) &&
            r["Total Bill Amount"] == (if f.bill.Some? then Str("Rs. " + f.bill.value) else d["Total Bill Amount"]) &&
            r["AL Number"] == d["AL Number"] && r["Approved Amount"] == d["Approved Amount"] &&
            r["Date & Time"] == d["Date & Time"] && r["Date of Admission"] == d["Date of Admission"] &&
            r["Date of Discharge"] == d["Date of Discharge"] && r["Letter Type"] == d["Letter Type"] &&
            r["UHID Number"] == d["UHID Number"]
  {
    var d1 := Put(d, "Hospital Address", f.hospital);
    PutIs(d, "Hospital Address", f.hospital);
    var d2 := Put(d1, "Name of the Patient", f.name);
    PutIs(d1, "Name of the Patient", f.name);
    var d3 := Put(d2, "Policy No", f.policy);
    PutIs(d2, "Policy No", f.policy);
    var d4 := Put(d3, "Policy Period", f.period);
    PutIs(d3, "Policy Period", f.period);
    var d5 := Put(d4, "Remarks", f.remarks);
    PutIs(d4, "Remarks", f.remarks);
    PutIs(d5, "Total Bill Amount", Rupees(f.bill));
  }

  /**
   * The record of `extract_pdf_data`: the thirteen keys; Letter Type and UHID Number keep their
   * fixed values; every other key holds what its search found, the two amounts as "Rs. X", and
   * None when the search found nothing.
   */
  lemma RecordIs(f: Searched)
    ensures var r := Later(Earlier(Initial(), f), f);
            Full(r) && r.Keys == (set k | k in Keys) &&
            r["Letter Type"] == Str("Approval") && r["UHID Number"] == Str(UhidSentence) &&
            r["AL Number"] == OrNone(f.al) &&
            r["Approved Amount"] == OrNone(Rupees(f.amount)) &&
            r["Date & Time"] == (if |f.dateTimes| > 0 then List(f.dateTimes) else Null) &&
            r["Date of Admission"] == OrNone(f.admission) &&
            r["Date of Discharge"] == OrNone(f.discharge) &&
            r["Hospital Address"] == OrNone(f.hospital) &&
            r["Name of the Patient"] == OrNone(f.name) &&
            r["Policy No"] == OrNone(f.policy) &&
            r["Policy Period"] == OrNone(f.period) &&
            r["Remarks"] == OrNone(f.remarks) &&
            r["Total Bill Amount"] == OrNone(Rupees(f.bill))
  {
    InitialKeys();
    InitialIs();
    EarlierIs(Initial(), f);
    LaterIs(Earlier(Initial(), f), f);
  }

  // ---------------------------------------------------------------- what the searches find

  /** `Rs. ` followed by a non-empty run of digits and commas. */
  predicate IsRupees(v: string)
  {
    |v| >= 5 && v[..4] == "Rs. " && forall j :: 4 <= j < |v| ==> IsDigit(v[j]) || v[j] == ','
  }

  lemma RupeesShape(g: Option<string>)
    requires g.Some? ==> |g.value| >= 1 && forall j :: 0 <= j < |g.value| ==> IsDigit(g.value[j]) || g.value[j] == ','
    ensures Rupees(g).Some? <==> g.Some?
    ensures Rupees(g).Some? ==> IsRupees(Rupees(g).value)
  {
    if g.Some? {
      var v := "Rs. " + g.value;
      forall j | 4 <= j < |v| ensures IsDigit(v[j]) || v[j] == ',' {
        assert v[j] == g.value[j - 4];
      }
    }
  }

  /** A character of `[0-9,]` under IGNORECASE is a digit or a comma. */
  lemma DigitCommaChars(c: char)
    requires InClass(c, S.DigitComma, true)
    ensures IsDigit(c) || c == ','
  {
    assert InClass(c, Range('0', '9'), true) || InClass(c, Chars(","), true);
    NonLetterFolds(c);
  }

  lemma AmountCaptures()
    ensures AllCaptureClass(AmountPattern.items, 1, S.DigitComma, 1) && SetsGroup(AmountPattern.items, 1)
    ensures AllCaptureClass(AmountInWordsPattern.items, 1, S.DigitComma, 1) && SetsGroup(AmountInWordsPattern.items, 1)
  {
    var a := AmountPattern.items;
    assert forall j :: 0 <= j < |a| ==> ItemCapturesClass(a[j], 1, S.DigitComma, 1);
    assert SetsGroup(a[3..], 1);
    assert SetsGroup(a[2..], 1);
    assert SetsGroup(a[1..], 1);
    var w := AmountInWordsPattern.items;
    assert forall j :: 0 <= j < |w| ==> ItemCapturesClass(w[j], 1, S.DigitComma, 1);
    assert SetsGroup(w[6..], 1);
    assert SetsGroup(w[5..], 1);
    assert SetsGroup(w[4..], 1);
    assert SetsGroup(w[3..], 1);
    assert SetsGroup(w[2..], 1);
    assert SetsGroup(w[1..], 1);
  }

  /**
   * The approved amount is the direct form's when it occurs, else the form after the amount in
   * words; either way a non-empty run of digits and commas, rendered "Rs. X".
   */
  lemma AmountForms(text: string)
    ensures Finds(AmountPattern, text) ==> AmountOf(text) == S.Group1(AmountPattern, text, 1)
    ensures !Finds(AmountPattern, text) ==> AmountOf(text) == S.Group1(AmountInWordsPattern, text, 1)
    ensures AmountOf(text).None? <==> !Finds(AmountPattern, text) && !Finds(AmountInWordsPattern, text)
    ensures Rupees(AmountOf(text)).Some? ==> IsRupees(Rupees(AmountOf(text)).value)
  {
    AmountCaptures();
    S.GroupInClass(AmountPattern, text, S.DigitComma);
    S.DigitCommaGroup(AmountInWordsPattern, text);
    var g := AmountOf(text);
    if g.Some? && Finds(AmountPattern, text) {
      forall j | 0 <= j < |g.value| ensures IsDigit(g.value[j]) || g.value[j] == ',' {
        DigitCommaChars(g.value[j]);
      }
    }
    RupeesShape(g);
  }

  /** The bill is a non-empty run of digits and commas, rendered "Rs. X". */
  lemma BillShape(text: string)
    ensures Rupees(S.Group1(S.BillPattern, text, 1)).Some? <==> Finds(S.BillPattern, text)
    ensures Rupees(S.Group1(S.BillPattern, text, 1)).Some? ==> IsRupees(Rupees(S.Group1(S.BillPattern, text, 1)).value)
  {
    S.CapturesOne(S.BillPattern, "Total Bill Amount", S.DigitComma);
    S.DigitCommaGroup(S.BillPattern, text);
    RupeesShape(S.Group1(S.BillPattern, text, 1));
  }

  /** The AL Number is the claim number's word: non-empty letters, digits and underscores. */
  lemma ClaimWord(text: string)
    ensures StrippedOf(ClaimPattern, text).Some? <==> Finds(ClaimPattern, text)
    ensures StrippedOf(ClaimPattern, text).Some? ==> IsWord(StrippedOf(ClaimPattern, text).value)
  {
    S.CapturesOne(ClaimPattern, "Claim Number", Word);
    S.GroupInClass(ClaimPattern, text, Word);
    var g := S.Group1(ClaimPattern, text, 1);
    if g.Some? {
      assert forall j :: 0 <= j < |g.value| ==> IsWordChar(g.value[j]);
      assert !IsSpace(g.value[0]) && !IsSpace(g.value[|g.value| - 1]);
      StripStripped(g.value);
    }
  }

  lemma CellCaptures(caption: string)
    ensures AllCaptureClass(CellPattern(caption).items, 1, CellChar, 1) && SetsGroup(CellPattern(caption).items, 1)
  {
    var items := CellPattern(caption).items;
    assert forall j :: 0 <= j < |items| ==> ItemCapturesClass(items[j], 1, CellChar, 1);
    assert SetsGroup(items[4..], 1);
    assert SetsGroup(items[3..], 1);
    assert SetsGroup(items[2..], 1);
    assert SetsGroup(items[1..], 1);
  }

  /** Patient name, policy number and policy period end at the line's end or at a "|": stripped, without either. */
  lemma CellValue(caption: string, text: string)
    ensures StrippedOf(CellPattern(caption), text).Some? <==> Finds(CellPattern(caption), text)
    ensures StrippedOf(CellPattern(caption), text).Some? ==> IsCell(StrippedOf(CellPattern(caption), text).value)
  {
    CellCaptures(caption);
    S.GroupInClass(CellPattern(caption), text, CellChar);
    var g := S.Group1(CellPattern(caption), text, 1);
    if g.Some? {
      forall j | 0 <= j < |g.value| ensures g.value[j] != '\n' && g.value[j] != '|' {
        var c := g.value[j];
        assert InClass(c, CellChar, false);
        assert !InClass(c, Chars("\n|"), false);
      }
      StripAvoids(g.value, '\n');
      StripAvoids(g.value, '|');
    }
  }

  lemma HospitalCaptures()
    ensures AllCaptureClass(HospitalPattern.items, 1, S.LineChar, 1) && SetsGroup(HospitalPattern.items, 1)
    ensures AllCaptureClass(HospitalPattern.items, 2, S.LineChar, 1) && SetsGroup(HospitalPattern.items, 2)
  {
    var items := HospitalPattern.items;
    assert forall j :: 0 <= j < |items| ==> ItemCapturesClass(items[j], 1, S.LineChar, 1);
    assert forall j :: 0 <= j < |items| ==> ItemCapturesClass(items[j], 2, S.LineChar, 1);
    assert SetsGroup(items[8..], 2);
    assert SetsGroup(items[7..], 2);
    assert SetsGroup(items[6..], 2);
    assert SetsGroup(items[5..], 2);
    assert SetsGroup(items[4..], 2);
    assert SetsGroup(items[4..], 1);
    assert SetsGroup(items[3..], 1) && SetsGroup(items[3..], 2);
    assert SetsGroup(items[2..], 1) && SetsGroup(items[2..], 2);
    assert SetsGroup(items[1..], 1) && SetsGroup(items[1..], 2);
  }

  /** A stripped group of `[^\n]+` has no line break. */
  lemma LineGroup(p: Pattern, text: string, n: nat)
    requires !p.ignoreCase && AllCaptureClass(p.items, n, S.LineChar, 1) && SetsGroup(p.items, n) && Finds(p, text)
    ensures var a := Strip(GroupText(Search(p, text).value, text, n));
            forall j :: 0 <= j < |a| ==> a[j] != '\n'
  {
    SearchSetsGroup(p, text, n);
    SearchCapturedText(p, text, n, S.LineChar, 1);
    var g := GroupText(Search(p, text).value, text, n);
    forall j | 0 <= j < |g| ensures g[j] != '\n' {
      var c := g[j];
      assert InClass(c, S.LineChar, false);
      assert !InClass(c, Chars("\n"), false);
    }
    StripAvoids(g, '\n');
  }

  /** The hospital's address joins two stripped one-line parts with ", Near ". */
  lemma HospitalParts(text: string)
    ensures HospitalOf(text).Some? <==> Finds(HospitalPattern, text)
    ensures Finds(HospitalPattern, text) ==>
              var m := Search(HospitalPattern, text).value;
              var a := Strip(GroupText(m, text, 1));
              var b := Strip(GroupText(m, text, 2));
              HospitalOf(text).value == a + ", Near " + b && IsStripped(a) && IsStripped(b) &&
              (forall j :: 0 <= j < |a| ==> a[j] != '\n') && (forall j :: 0 <= j < |b| ==> b[j] != '\n')
  {
    if Finds(HospitalPattern, text) {
      HospitalCaptures();
      LineGroup(HospitalPattern, text, 1);
      LineGroup(HospitalPattern, text, 2);
    }
  }

  /** Entry `j` of the list is the date and the time of match `j`, joined by a space. */
  lemma {:induction false} PairsAt(ms: seq<Match>, text: string, j: nat)
    requires forall i :: 0 <= i < |ms| ==> ValidMatch(ms[i], text)
    requires j < |ms|
    ensures Pairs(ms, text)[j] == GroupText(ms[j], text, 1) + " " + GroupText(ms[j], text, 2)
    decreases j
  {
    if j > 0 {
      PairsAt(ms[1..], text, j - 1);
      assert ms[1..][j - 1] == ms[j];
    }
  }

  /**
   * "Date & Time" lists one date and time per match of `re.findall`, in text order: entry `j` is
   * match `j`'s date and time joined by a space, and match `j` starts before match `j + 1`.
   */
  lemma DateTimesIs(text: string)
    ensures var ms := FindAll(DateTimePattern, text);
            |DateTimes(text)| == |ms| &&
            (forall j :: 0 <= j < |ms| ==> DateTimes(text)[j] == GroupText(ms[j], text, 1) + " " + GroupText(ms[j], text, 2)) &&
            (forall i, j :: 0 <= i < j < |ms| ==> ms[i].start < ms[j].start)
  {
    var ms := FindAll(DateTimePattern, text);
    forall j | 0 <= j < |ms| ensures DateTimes(text)[j] == GroupText(ms[j], text, 1) + " " + GroupText(ms[j], text, 2) {
      PairsAt(ms, text, j);
    }
    FindAllFromOrdered(DateTimePattern, text, 0);
  }

  /**
   * The remarks are captured exactly when the label occurs at an index greater than 0 and
   * "Head Office:" occurs from there on (so a label at the very start of the text is ignored);
   * they are then single-spaced and stripped.
   */
  lemma RemarksCases(text: string)
    ensures RemarksOf(text).Some? <==>
              Find(text, RemarksLabel) > 0 && FindFrom(text, RemarksEnd, Find(text, RemarksLabel)) >= 0
    ensures RemarksOf(text).Some? ==> SingleSpaced(RemarksOf(text).value) && IsStripped(RemarksOf(text).value)
  {
    var start := Find(text, RemarksLabel);
    if start > 0 {
      var end := FindFrom(text, RemarksEnd, start);
      if end >= 0 {
        assert text[start] == 'A' by {
          assert OccursAt(text, RemarksLabel, start);
          assert text[start..start + |RemarksLabel|][0] == RemarksLabel[0];
        }
        assert text[end] == 'H' by {
          assert OccursAt(text, RemarksEnd, end);
          assert text[end..end + |RemarksEnd|][0] == RemarksEnd[0];
        }
        CollapseSingle(Strip(Replace(text[start..end], RemarksLabel, "")));
      }
    }
  }

  // ---------------------------------------------------------------- extract_pdf_data's record

  /** The record has the thirteen keys, with Letter Type "Approval" and the fixed UHID sentence. */
  lemma PdfDataKeys(text: string)
    ensures var r := PdfData(text);
            Full(r) && r.Keys == (set k | k in Keys) &&
            r["Letter Type"] == Str("Approval") && r["UHID Number"] == Str(UhidSentence)
  {
    RecordIs(SearchedIn(text));
  }

  /** A word of `\w+`, non-empty. */
  predicate IsWord(v: string)
  {
    |v| >= 1 && forall j :: 0 <= j < |v| ==> IsWordChar(v[j])
  }

  /** `v` is `Str(x)` for an `x` that meets `p`. */
  predicate StrWith(v: Value, p: string -> bool)
  {
    v.Str? && p(v.s)
  }

  /**
   * The AL Number is None when no claim number occurs and otherwise the claim number's word; the
   * approved amount and the bill are None when their patterns do not occur and otherwise "Rs. "
   * and digits and commas; the dates and times are None when none occurs and otherwise one entry
   * per occurrence.
   */
  lemma PdfDataAmounts(text: string)
    ensures var r := PdfData(text);
            Full(r) &&
            (r["AL Number"] == Null <==> !Finds(ClaimPattern, text)) &&
            (r["AL Number"] != Null ==> StrWith(r["AL Number"], IsWord)) &&
            (r["Approved Amount"] == Null <==> !Finds(AmountPattern, text) && !Finds(AmountInWordsPattern, text)) &&
            (r["Approved Amount"] != Null ==> StrWith(r["Approved Amount"], IsRupees)) &&
            (r["Total Bill Amount"] == Null <==> !Finds(S.BillPattern, text)) &&
            (r["Total Bill Amount"] != Null ==> StrWith(r["Total Bill Amount"], IsRupees)) &&
            (r["Date & Time"] == Null <==> |FindAll(DateTimePattern, text)| == 0) &&
            (r["Date & Time"] != Null ==> r["Date & Time"] == List(DateTimes(text)))
  {
    RecordIs(SearchedIn(text));
    ClaimWord(text);
    AmountForms(text);
    BillShape(text);
    DateTimesIs(text);
  }

  /** One line of a cell: stripped, without a line break or a "|". */
  predicate IsCell(v: string)
  {
    IsStripped(v) && forall j :: 0 <= j < |v| ==> v[j] != '\n' && v[j] != '|'
  }

  /** The remarks as stored: single-spaced and stripped. */
  predicate IsRemarks(v: string)
  {
    SingleSpaced(v) && IsStripped(v)
  }

  /**
   * The patient's name and the policy number and period are None exactly when their cells are
   * not found, and otherwise single stripped lines without "|".
   */
  lemma PdfDataCells(text: string)
    ensures var r := PdfData(text);
            Full(r) &&
            (r["Name of the Patient"] == Null <==> !Finds(CellPattern("Patient Name"), text)) &&
            (r["Name of the Patient"] != Null ==> StrWith(r["Name of the Patient"], IsCell)) &&
            (r["Policy No"] == Null <==> !Finds(CellPattern("Policy Number"), text)) &&
            (r["Policy No"] != Null ==> StrWith(r["Policy No"], IsCell)) &&
            (r["Policy Period"] == Null <==> !Finds(CellPattern("Policy Period"), text)) &&
            (r["Policy Period"] != Null ==> StrWith(r["Policy Period"], IsCell))
  {
    var f := SearchedIn(text);
    RecordIs(f);
    CellValue("Patient Name", text);
    CellValue("Policy Number", text);
    CellValue("Policy Period", text);
    assert f.name == StrippedOf(CellPattern("Patient Name"), text);
    assert f.policy == StrippedOf(CellPattern("Policy Number"), text);
    assert f.period == StrippedOf(CellPattern("Policy Period"), text);
  }

  /**
   * The hospital's address is None exactly when its pattern finds nothing; the remarks are None
   * exactly when the label does not occur after the first character or "Head Office:" does not
   * follow it, and otherwise single-spaced and stripped.
   */
  lemma PdfDataPlaces(text: string)
    ensures var r := PdfData(text);
            Full(r) &&
            (r["Hospital Address"] == Null <==> !Finds(HospitalPattern, text)) &&
            (r["Hospital Address"] != Null ==> r["Hospital Address"] == Str(HospitalOf(text).value)) &&
            (r["Remarks"] == Null <==> !(Find(text, RemarksLabel) > 0 && FindFrom(text, RemarksEnd, Find(text, RemarksLabel)) >= 0)) &&
            (r["Remarks"] != Null ==> StrWith(r["Remarks"], IsRemarks))
  {
    var f := SearchedIn(text);
    RecordIs(f);
    HospitalParts(text);
    RemarksCases(text);
  }
}
