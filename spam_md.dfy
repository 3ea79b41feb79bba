/**
 * spam_md.py: the MD India authorization letter read field by field from its text into a
 * dictionary of thirteen "null" defaults, the cleanup that turns "null" and empty values into
 * None in place, and the tagging of several letters' results with their position.
 */
module SpamMd {
  import opened Common
  import opened Text
  import opened Regex
  import opened Stores

  // ---------------------------------------------------------------- the patterns

  /** `\s*:\s*` */
  const Colon: seq<Item> := [Ws0, Lit(":"), Ws0]

  /** `(\d{2}/\d{2}/\d{4})` as group `n`. */
  function DateGroup(n: nat): Item
  {
    Group(n, [Rep(Digit, 2, AtMost(2), true), Lit("/"), Rep(Digit, 2, AtMost(2), true), Lit("/"), Rep(Digit, 4, AtMost(4), true)])
  }

  /** `[A-Z0-9]` */
  const UpperDigit: CharClass := Union(Range('A', 'Z'), Range('0', '9'))

  /** `[0-9,]` */
  const DigitComma: CharClass := Union(Range('0', '9'), Chars(","))

  /** `[^\n]` */
  const LineChar: CharClass := Negate(Chars("\n"))

  function Plain(items: seq<Item>): Pattern { Pattern(items, false, false) }

  const ClaimPattern: Pattern := Plain([Lit("Claim Number")] + Colon + [Cap(1, UpperDigit, 1, Unbounded, true)])

  /** `Total Authorized Amount.*?Rs\.\s*([0-9,]+)`, DOTALL. */
  const ApprovedPattern: Pattern :=
    Plain([Lit("Total Authorized Amount"), Rep(AnyChar, 0, Unbounded, false), Lit("Rs."), Ws0, Cap(1, DigitComma, 1, Unbounded, true)])

  /** `ENHANCEMENT.*?(\d{2}/\d{2}/\d{4})\s+[A-Z0-9]+\s+(\d{1,2}:\d{2}:\d{2}[AP]M)` */
  const DateTimePattern: Pattern := Plain([
    Lit("ENHANCEMENT"), Rep(NotNewline, 0, Unbounded, false), DateGroup(1), Ws1, Rep(UpperDigit, 1, Unbounded, true), Ws1,
    Group(2, [Rep(Digit, 1, AtMost(2), true), Lit(":"), Rep(Digit, 2, AtMost(2), true), Lit(":"), Rep(Digit, 2, AtMost(2), true),
              Rep(Chars("AP"), 1, AtMost(1), true), Lit("M")])])

  const AdmissionPattern: Pattern := Plain([Lit("Expected Date of Admission")] + Colon + [DateGroup(1)])
  const DischargePattern: Pattern := Plain([Lit("Expected Date of Discharge")] + Colon + [DateGroup(1)])

  /** `IC Name\s*:\s*([^\n]+)` */
  const HospitalPattern: Pattern := Plain([Lit("IC Name")] + Colon + [Cap(1, LineChar, 1, Unbounded, true)])

  /** `IC Name\s*:.*?\n([^\n]+)\n([^\n]+)`, DOTALL. */
  const HospitalAddressPattern: Pattern := Plain([
    Lit("IC Name"), Ws0, Lit(":"), Rep(AnyChar, 0, Unbounded, false), Lit("\n"), Cap(1, LineChar, 1, Unbounded, true),
    Lit("\n"), Cap(2, LineChar, 1, Unbounded, true)])

  const PatientPattern: Pattern := Plain([Lit("Patient Name")] + Colon + [Cap(1, LineChar, 1, Unbounded, true)])
  const PolicyPattern: Pattern := Plain([Lit("Policy Number")] + Colon + [Cap(1, LineChar, 1, Unbounded, true)])

  /** `Policy Period\s*:\s*(\d{2}/\d{2}/\d{4})\s+(\d{2}/\d{2}/\d{4})` */
  const PeriodPattern: Pattern := Plain([Lit("Policy Period")] + Colon + [DateGroup(1), Ws1, DateGroup(2)])

  /** `Authorisation Remarks\s*:(.*?)(?=Hospital Agreed Tariff|Terms and Conditions)`, DOTALL. */
  const RemarksPattern: Pattern := Plain([
    Lit("Authorisation Remarks"), Ws0, Lit(":"), Cap(1, AnyChar, 0, Unbounded, false),
    Ahead([Lit("Hospital Agreed Tariff"), Lit("Terms and Conditions")])])

  const BillPattern: Pattern := Plain([Lit("Total Bill Amount")] + Colon + [Cap(1, DigitComma, 1, Unbounded, true)])
  const UhidPattern: Pattern := Plain([Lit("Rohini ID")] + Colon + [Cap(1, Range('0', '9'), 1, Unbounded, true)])

  // ---------------------------------------------------------------- the fields

  /** Group `n` of the first match, if `p` matches. */
  function Group1(p: Pattern, text: string, n: nat): Option<string>
  {
    var m := Search(p, text);
    if m.Some? then Some(GroupText(m.value, text, n)) else None
  }

  /** "Date & Time": the date and time of the last ENHANCEMENT row `re.findall` yields. */
  function LastDateTime(text: string): Option<string>
  {
    var ms := FindAll(DateTimePattern, text);
    if |ms| == 0 then None
    else Some(GroupText(ms[|ms| - 1], text, 1) + " " + GroupText(ms[|ms| - 1], text, 2))
  }

  /** "Hospital Address": the IC name line and the second line after it, only when both patterns match. */
  function AddressOf(text: string): Option<string>
  {
    var name := Group1(HospitalPattern, text, 1);
    var address := Group1(HospitalAddressPattern, text, 2);
    if name.Some? && address.Some? then Some("hospital name: " + Strip(name.value) + "\naddress: " + Strip(address.value))
    else None
  }

  /** "Letter Type": Enhancement, else Initial, else Approval. */
  function LetterTypeOf(text: string): string
  {
    if Contains(text, "ENHANCEMENT") then "Enhancement" else if Contains(text, "INITIAL") then "Initial" else "Approval"
  }

  /** "Policy Period": `f"{d1} to {d2}"`. */
  function PeriodOf(text: string): Option<string>
  {
    var m := Search(PeriodPattern, text);
    if m.Some? then Some(GroupText(m.value, text, 1) + " to " + GroupText(m.value, text, 2)) else None
  }

  /** "Total Bill Amount": `f"Rs. {amount}.00"`. */
  function BillOf(text: string): Option<string>
  {
    var g := Group1(BillPattern, text, 1);
    if g.Some? then Some("Rs. " + g.value + ".00") else None
  }

  /** The thirteen entries of `result`. */
  datatype Field =
    | AlNumber | ApprovedAmount | DateTime | Admission | Discharge | HospitalAddress | LetterType
    | PatientName | PolicyNo | PolicyPeriod | Remarks | BillAmount | Uhid

  /** The dictionary key of each entry. */
  function Key(f: Field): string
  {
    match f
    case AlNumber => "AL Number"
    case ApprovedAmount => "Approved Amount"
    case DateTime => "Date & Time"
    case Admission => "Date of Admission"
    case Discharge => "Date of Discharge"
    case HospitalAddress => "Hospital Address"
    case LetterType => "Letter Type"
    case PatientName => "Name of the Patient"
    case PolicyNo => "Policy No"
    case PolicyPeriod => "Policy Period"
    case Remarks => "Remarks"
    case BillAmount => "Total Bill Amount"
    case Uhid => "UHID Number"
  }

  /** The value each entry's store writes, or None when its pattern does not match and the "null" stays. */
  function FieldValue(f: Field, text: string): Option<string>
  {
    match f
    case AlNumber => Group1(ClaimPattern, text, 1)
    case ApprovedAmount =>
      var g := Group1(ApprovedPattern, text, 1);
      if g.Some? then Some(Replace(g.value, ",", "")) else None
    case DateTime => LastDateTime(text)
    case Admission => Group1(AdmissionPattern, text, 1)
    case Discharge => Group1(DischargePattern, text, 1)
    case HospitalAddress => AddressOf(text)
    case LetterType => Some(LetterTypeOf(text))
    case PatientName =>
      var g := Group1(PatientPattern, text, 1);
      if g.Some? then Some(Strip(g.value)) else None
    case PolicyNo =>
      var g := Group1(PolicyPattern, text, 1);
      if g.Some? then Some(Strip(g.value)) else None
    case PolicyPeriod => PeriodOf(text)
    case Remarks =>
      var g := Group1(RemarksPattern, text, 1);
      if g.Some? then Some(SquashSpaces(Strip(g.value))) else None
    case BillAmount => BillOf(text)
    case Uhid => Group1(UhidPattern, text, 1)
  }

  // ---------------------------------------------------------------- extract_medical_authorization_data

  /** The entries in the order of `result`'s literal and of the stores. */
  const Fields: seq<Field> := [
    AlNumber, ApprovedAmount, DateTime, Admission, Discharge, HospitalAddress, LetterType,
    PatientName, PolicyNo, PolicyPeriod, Remarks, BillAmount, Uhid]

  /** Different entries have different keys. */
  lemma KeyInjective()
    ensures forall f, g :: Key(f) == Key(g) ==> f == g
  {
  }

  lemma FieldsDistinct()
    ensures forall i, j :: 0 <= i < j < |Fields| ==> Key(Fields[i]) != Key(Fields[j])
  {
    KeyInjective();
  }

  /** The entries by position. */
  lemma FieldsAt()
    ensures |Fields| == 13
    ensures Fields[0] == AlNumber && Fields[1] == ApprovedAmount && Fields[2] == DateTime && Fields[3] == Admission
    ensures Fields[4] == Discharge && Fields[5] == HospitalAddress && Fields[6] == LetterType && Fields[7] == PatientName
    ensures Fields[8] == PolicyNo && Fields[9] == PolicyPeriod && Fields[10] == Remarks && Fields[11] == BillAmount
    ensures Fields[12] == Uhid
  {
  }

  /** Each entry's value in `text`. */
  function Values(text: string): Field -> Option<string>
  {
    f => FieldValue(f, text)
  }

  /** `extract_medical_authorization_data(text)` */
  function AuthorizationData(text: string): map<string, string>
  {
    Stored(Fields, Key, Values(text), |Fields|)
  }

  /** Every entry is in the list. */
  lemma AllFields(f: Field)
    ensures f in Fields
  {
  }

  /** The dictionary has the thirteen keys; each holds its entry's value, or "null" when that did not match. */
  lemma AuthorizationDataIs(text: string)
    ensures AuthorizationData(text).Keys == set f | f in Fields :: Key(f)
    ensures forall f {:trigger Key(f)} :: Key(f) in AuthorizationData(text) && AuthorizationData(text)[Key(f)] == OrNull(FieldValue(f, text))
  {
    var value := Values(text);
    FieldsDistinct();
    StoredKeys(Fields, Key, value, |Fields|);
    StoredIs(Fields, Key, value, |Fields|);
    forall f ensures Key(f) in AuthorizationData(text) && AuthorizationData(text)[Key(f)] == OrNull(FieldValue(f, text)) {
      AllFields(f);
      var j :| 0 <= j < |Fields| && Fields[j] == f;
      assert value(Fields[j]) == FieldValue(f, text);
    }
  }

  /** The stores of `extract_medical_authorization_data` onto the defaults `d`, in source order, each match read through `value`. */
  method StoreFields(value: Field -> Option<string>, d: map<string, string>) returns (result: map<string, string>)
    requires d == Defaults(Fields, Key)
    ensures result == Stored(Fields, Key, value, |Fields|)
  {
    FieldsAt();
    result := d;
    result := StoreNext(Fields, Key, value, 0, AlNumber, result);
    result := StoreNext(Fields, Key, value, 1, ApprovedAmount, result);
    result := StoreNext(Fields, Key, value, 2, DateTime, result);
    result := StoreNext(Fields, Key, value, 3, Admission, result);
    result := StoreNext(Fields, Key, value, 4, Discharge, result);
    result := StoreNext(Fields, Key, value, 5, HospitalAddress, result);
    result := StoreNext(Fields, Key, value, 6, LetterType, result);
    result := StoreNext(Fields, Key, value, 7, PatientName, result);
    result := StoreNext(Fields, Key, value, 8, PolicyNo, result);
    result := StoreNext(Fields, Key, value, 9, PolicyPeriod, result);
    result := StoreNext(Fields, Key, value, 10, Remarks, result);
    result := StoreNext(Fields, Key, value, 11, BillAmount, result);
    result := StoreNext(Fields, Key, value, 12, Uhid, result);
  }

  method ExtractMedicalAuthorizationData(text: string) returns (result: map<string, string>)
    ensures result == AuthorizationData(text)
  {
    result := Defaults(Fields, Key);
    result := StoreFields(Values(text), result);
  }

  // ---------------------------------------------------------------- what each field holds

  /** "Letter Type" is never "null": Enhancement when ENHANCEMENT occurs, else Initial when INITIAL does, else Approval. */
  lemma LetterTypeCases(text: string)
    ensures "Letter Type" in AuthorizationData(text)
    ensures AuthorizationData(text)["Letter Type"] == "Enhancement" <==> Contains(text, "ENHANCEMENT")
    ensures AuthorizationData(text)["Letter Type"] == "Initial" <==> !Contains(text, "ENHANCEMENT") && Contains(text, "INITIAL")
    ensures AuthorizationData(text)["Letter Type"] == "Approval" <==> !Contains(text, "ENHANCEMENT") && !Contains(text, "INITIAL")
  {
    AuthorizationDataIs(text);
    assert Key(LetterType) == "Letter Type";
  }

  /** Group 1 of a pattern that sets it, and only as `k` characters, is at least one character of class `k`. */
  lemma GroupInClass(p: Pattern, text: string, k: CharClass)
    requires AllCaptureClass(p.items, 1, k, 1) && SetsGroup(p.items, 1)
    ensures var g := Group1(p, text, 1);
            g.Some? ==> |g.value| >= 1 && forall j :: 0 <= j < |g.value| ==> InClass(g.value[j], k, p.ignoreCase)
  {
    if Finds(p, text) {
      SearchSetsGroup(p, text, 1);
      SearchCapturedText(p, text, 1, k, 1);
    }
  }

  /** `label\s*:\s*(k+)` captures group 1 as a non-empty run of `k`. */
  lemma CapturesOne(p: Pattern, caption: string, k: CharClass)
    requires p.items == [Lit(caption)] + Colon + [Cap(1, k, 1, Unbounded, true)]
    ensures AllCaptureClass(p.items, 1, k, 1) && SetsGroup(p.items, 1)
  {
    assert forall j :: 0 <= j < |p.items| ==> ItemCapturesClass(p.items[j], 1, k, 1);
    assert SetsGroup(p.items[4..], 1);
    assert SetsGroup(p.items[3..], 1);
    assert SetsGroup(p.items[2..], 1);
    assert SetsGroup(p.items[1..], 1);
  }

  /** The "AL Number" is "null" exactly when there is no claim number, and otherwise capitals and digits. */
  lemma AlNumberToken(text: string)
    ensures "AL Number" in AuthorizationData(text)
    ensures AuthorizationData(text)["AL Number"] == "null" <==> !Finds(ClaimPattern, text)
    ensures Finds(ClaimPattern, text) ==>
              var a := AuthorizationData(text)["AL Number"];
              |a| >= 1 && forall j :: 0 <= j < |a| ==> IsUpper(a[j]) || IsDigit(a[j])
  {
    AuthorizationDataIs(text);
    assert Key(AlNumber) == "AL Number";
    CapturesOne(ClaimPattern, "Claim Number", UpperDigit);
    GroupInClass(ClaimPattern, text, UpperDigit);
    var g := Group1(ClaimPattern, text, 1);
    if g.Some? {
      forall j | 0 <= j < |g.value| ensures IsUpper(g.value[j]) || IsDigit(g.value[j]) {
        assert InClass(g.value[j], UpperDigit, false);
        assert InClass(g.value[j], Range('A', 'Z'), false) || InClass(g.value[j], Range('0', '9'), false);
      }
      assert !IsUpper('n') && !IsDigit('n');
    }
  }

  /** One entry of the dictionary: its entry's value, or "null". */
  lemma FieldEntry(text: string, f: Field)
    ensures Key(f) in AuthorizationData(text) && AuthorizationData(text)[Key(f)] == OrNull(FieldValue(f, text))
  {
    AuthorizationDataIs(text);
  }

  /** A value with a space in it is not the "null" default. */
  lemma SpaceNotNull(v: string, i: nat)
    requires i < |v| && v[i] == ' '
    ensures v != "null"
  {
  }

  /** A non-empty value of digits only is not the "null" default. */
  lemma DigitsNotNull(v: string)
    requires |v| >= 1 && AllDigits(v)
    ensures v != "null"
  {
    assert IsDigit(v[0]);
  }

  /** The "UHID Number" is "null" exactly when there is no Rohini ID, and otherwise digits. */
  lemma UhidDigits(text: string)
    ensures "UHID Number" in AuthorizationData(text)
    ensures AuthorizationData(text)["UHID Number"] == "null" <==> !Finds(UhidPattern, text)
    ensures Finds(UhidPattern, text) ==>
              |AuthorizationData(text)["UHID Number"]| >= 1 && AllDigits(AuthorizationData(text)["UHID Number"])
  {
    FieldEntry(text, Uhid);
    assert Key(Uhid) == "UHID Number";
    CapturesOne(UhidPattern, "Rohini ID", Range('0', '9'));
    GroupInClass(UhidPattern, text, Range('0', '9'));
    var g := Group1(UhidPattern, text, 1);
    if g.Some? {
      forall j | 0 <= j < |g.value| ensures IsDigit(g.value[j]) {
        assert InClass(g.value[j], Range('0', '9'), false);
      }
      DigitsNotNull(g.value);
    }
  }

  /** `Total Authorized Amount.*?Rs\.\s*([0-9,]+)` captures group 1 as a run of digits and commas. */
  lemma ApprovedCaptures()
    ensures AllCaptureClass(ApprovedPattern.items, 1, DigitComma, 1) && SetsGroup(ApprovedPattern.items, 1)
  {
    var items := ApprovedPattern.items;
    assert forall j :: 0 <= j < |items| ==> ItemCapturesClass(items[j], 1, DigitComma, 1);
    assert SetsGroup(items[4..], 1);
    assert SetsGroup(items[3..], 1);
    assert SetsGroup(items[2..], 1);
    assert SetsGroup(items[1..], 1);
  }

  /** Group 1 of a pattern capturing digits and commas holds only those. */
  lemma DigitCommaGroup(p: Pattern, text: string)
    requires !p.ignoreCase && AllCaptureClass(p.items, 1, DigitComma, 1) && SetsGroup(p.items, 1)
    ensures var g := Group1(p, text, 1);
            g.Some? ==> |g.value| >= 1 && forall j :: 0 <= j < |g.value| ==> IsDigit(g.value[j]) || g.value[j] == ','
  {
    GroupInClass(p, text, DigitComma);
    var g := Group1(p, text, 1);
    if g.Some? {
      forall j | 0 <= j < |g.value| ensures IsDigit(g.value[j]) || g.value[j] == ',' {
        assert InClass(g.value[j], DigitComma, false);
        assert InClass(g.value[j], Range('0', '9'), false) || InClass(g.value[j], Chars(","), false);
      }
    }
  }

  /**
   * The "Approved Amount" is "null" exactly when there is no authorized amount, and otherwise the
   * amount's digits with its commas dropped.
   */
  lemma ApprovedDigits(text: string)
    ensures "Approved Amount" in AuthorizationData(text)
    ensures AuthorizationData(text)["Approved Amount"] == "null" <==> !Finds(ApprovedPattern, text)
    ensures Finds(ApprovedPattern, text) ==> AllDigits(AuthorizationData(text)["Approved Amount"])
  {
    FieldEntry(text, ApprovedAmount);
    assert Key(ApprovedAmount) == "Approved Amount";
    ApprovedCaptures();
    DigitCommaGroup(ApprovedPattern, text);
    var g := Group1(ApprovedPattern, text, 1);
    if g.Some? {
      ReplaceCommasDigits(g.value);
      var v := Replace(g.value, ",", "");
      assert |v| == 0 || IsDigit(v[0]);
    }
  }

  /**
   * The "Total Bill Amount" is "null" exactly when there is no bill amount, and otherwise
   * `Rs. ` and the amount's digits and commas as written, then `.00`.
   */
  lemma BillShape(text: string)
    ensures "Total Bill Amount" in AuthorizationData(text)
    ensures AuthorizationData(text)["Total Bill Amount"] == "null" <==> !Finds(BillPattern, text)
    ensures Finds(BillPattern, text) ==>
              var b := AuthorizationData(text)["Total Bill Amount"];
              |b| >= 8 && b[..4] == "Rs. " && b[|b| - 3..] == ".00" &&
              forall j :: 4 <= j < |b| - 3 ==> IsDigit(b[j]) || b[j] == ','
  {
    FieldEntry(text, BillAmount);
    assert Key(BillAmount) == "Total Bill Amount";
    CapturesOne(BillPattern, "Total Bill Amount", DigitComma);
    DigitCommaGroup(BillPattern, text);
    var g := Group1(BillPattern, text, 1);
    if g.Some? {
      var b := "Rs. " + g.value + ".00";
      assert b[3] == ' ';
      SpaceNotNull(b, 3);
      forall j | 4 <= j < |b| - 3 ensures IsDigit(b[j]) || b[j] == ',' {
        assert b[j] == g.value[j - 4];
      }
      assert b[|b| - 3..] == ".00";
    }
  }

  /** The "Remarks" are "null" without a remarks section, and otherwise single-spaced. */
  lemma RemarksSingleSpaced(text: string)
    ensures "Remarks" in AuthorizationData(text)
    ensures !Finds(RemarksPattern, text) ==> AuthorizationData(text)["Remarks"] == "null"
    ensures Finds(RemarksPattern, text) ==> SingleSpaced(AuthorizationData(text)["Remarks"])
  {
    FieldEntry(text, Remarks);
    assert Key(Remarks) == "Remarks";
    var g := Group1(RemarksPattern, text, 1);
    if g.Some? {
      SquashSpacesSingle(Strip(g.value));
    }
  }

  /** The patient's name and the policy number are "null" when absent, and otherwise stripped. */
  lemma NameAndPolicyStripped(text: string)
    ensures "Name of the Patient" in AuthorizationData(text) && "Policy No" in AuthorizationData(text)
    ensures !Finds(PatientPattern, text) ==> AuthorizationData(text)["Name of the Patient"] == "null"
    ensures Finds(PatientPattern, text) ==> IsStripped(AuthorizationData(text)["Name of the Patient"])
    ensures !Finds(PolicyPattern, text) ==> AuthorizationData(text)["Policy No"] == "null"
    ensures Finds(PolicyPattern, text) ==> IsStripped(AuthorizationData(text)["Policy No"])
  {
    FieldEntry(text, PatientName);
    FieldEntry(text, PolicyNo);
    assert Key(PatientName) == "Name of the Patient";
    assert Key(PolicyNo) == "Policy No";
  }

  /**
   * "Date & Time" is "null" exactly when no ENHANCEMENT row matches, and otherwise the date and
   * time of the last of them.
   */
  lemma DateTimeLast(text: string)
    ensures "Date & Time" in AuthorizationData(text)
    ensures AuthorizationData(text)["Date & Time"] == "null" <==> |FindAll(DateTimePattern, text)| == 0
    ensures var ms := FindAll(DateTimePattern, text);
            |ms| > 0 ==> AuthorizationData(text)["Date & Time"] ==
                         GroupText(ms[|ms| - 1], text, 1) + " " + GroupText(ms[|ms| - 1], text, 2)
  {
    FieldEntry(text, DateTime);
    assert Key(DateTime) == "Date & Time";
    var ms := FindAll(DateTimePattern, text);
    if |ms| > 0 {
      var a := GroupText(ms[|ms| - 1], text, 1);
      SpaceNotNull(a + " " + GroupText(ms[|ms| - 1], text, 2), |a|);
    }
  }

  /** "Policy Period" is "null" exactly when the period pattern does not match, and otherwise two dates joined by " to ". */
  lemma PeriodJoined(text: string)
    ensures "Policy Period" in AuthorizationData(text)
    ensures AuthorizationData(text)["Policy Period"] == "null" <==> !Finds(PeriodPattern, text)
    ensures Finds(PeriodPattern, text) ==>
              var m := Search(PeriodPattern, text).value;
              AuthorizationData(text)["Policy Period"] == GroupText(m, text, 1) + " to " + GroupText(m, text, 2)
  {
    FieldEntry(text, PolicyPeriod);
    assert Key(PolicyPeriod) == "Policy Period";
    if Finds(PeriodPattern, text) {
      var m := Search(PeriodPattern, text).value;
      var a := GroupText(m, text, 1);
      SpaceNotNull(a + " to " + GroupText(m, text, 2), |a|);
    }
  }

  /** The address is there exactly when both patterns match, and then starts with "hospital name: ". */
  lemma AddressOfNamed(text: string)
    ensures AddressOf(text).Some? <==> Finds(HospitalPattern, text) && Finds(HospitalAddressPattern, text)
    ensures AddressOf(text).Some? ==> StartsWith(AddressOf(text).value, "hospital name: ") && AddressOf(text).value != "null"
  {
    var v := AddressOf(text);
    if v.Some? {
      var rest := Strip(Group1(HospitalPattern, text, 1).value) + "\naddress: " + Strip(Group1(HospitalAddressPattern, text, 2).value);
      assert v.value == "hospital name: " + rest;
      assert v.value[..15] == "hospital name: ";
      SpaceNotNull(v.value, 8);
    }
  }

  /**
   * "Hospital Address" is "null" unless both the IC name and the lines after it match, and
   * otherwise starts with "hospital name: ".
   */
  lemma AddressNamed(text: string)
    ensures "Hospital Address" in AuthorizationData(text)
    ensures AuthorizationData(text)["Hospital Address"] == "null" <==>
              !(Finds(HospitalPattern, text) && Finds(HospitalAddressPattern, text))
    ensures Finds(HospitalPattern, text) && Finds(HospitalAddressPattern, text) ==>
              StartsWith(AuthorizationData(text)["Hospital Address"], "hospital name: ")
  {
    FieldEntry(text, HospitalAddress);
    assert Key(HospitalAddress) == "Hospital Address";
    AddressOfNamed(text);
  }

  // ---------------------------------------------------------------- extract_from_multiple_pdfs

  /** The tag of the `i`-th text, counted from zero: `f"pdf_{i+1}"`. */
  function SourceTag(i: nat): string
  {
    "pdf_" + NatToString(i + 1)
  }

  /** `data['source_file'] = tag` */
  function Tagged(data: map<string, string>, i: nat): map<string, string>
  {
    data["source_file" := SourceTag(i)]
  }

  /** `extract_from_multiple_pdfs(pdf_texts)`: each text's dictionary with its position's tag, in order. */
  function AllTagged(texts: seq<string>): (r: seq<map<string, string>>)
    ensures |r| == |texts|
  {
    seq(|texts|, i requires 0 <= i < |texts| => Tagged(AuthorizationData(texts[i]), i))
  }

  method ExtractFromMultiplePdfs(texts: seq<string>) returns (results: seq<map<string, string>>)
    ensures results == AllTagged(texts)
  {
    results := [];
    var i := 0;
    while i < |texts|
      invariant 0 <= i <= |texts|
      invariant results == AllTagged(texts)[..i]
    {
      var data := ExtractMedicalAuthorizationData(texts[i]);
      data := data["source_file" := SourceTag(i)];
      results := results + [data];
      i := i + 1;
    }
  }

  /** Different positions get different tags. */
  lemma SourceTagsDistinct(i: nat, j: nat)
    requires i != j
    ensures SourceTag(i) != SourceTag(j)
  {
    if SourceTag(i) == SourceTag(j) {
      assert SourceTag(i)[4..] == NatToString(i + 1);
      assert SourceTag(j)[4..] == NatToString(j + 1);
      ParseNatToString(i + 1);
      ParseNatToString(j + 1);
    }
  }

  /**
   * The `i`-th result is the `i`-th text's dictionary and its "source_file" tag; the tags
   * of different results differ.
   */
  lemma AllTaggedEntries(texts: seq<string>)
    ensures forall i :: 0 <= i < |texts| ==>
              AllTagged(texts)[i].Keys == AuthorizationData(texts[i]).Keys + {"source_file"} &&
              AllTagged(texts)[i]["source_file"] == SourceTag(i) &&
              forall k :: k in AuthorizationData(texts[i]) && k != "source_file" ==> AllTagged(texts)[i][k] == AuthorizationData(texts[i])[k]
    ensures forall i, j :: 0 <= i < j < |texts| ==> AllTagged(texts)[i]["source_file"] != AllTagged(texts)[j]["source_file"]
  {
    forall i, j | 0 <= i < j < |texts|
      ensures AllTagged(texts)[i]["source_file"] != AllTagged(texts)[j]["source_file"]
    {
      SourceTagsDistinct(i, j);
    }
  }

  // ---------------------------------------------------------------- validate_extracted_data

  /** A "null" or empty value becomes None; any other value stays. */
  function Cleaned(v: Option<string>): Option<string>
  {
    if v == Some("null") || v == Some("") then None else v
  }

  /** The dictionary after `validate_extracted_data`. */
  function Validated(m: map<string, Option<string>>): map<string, Option<string>>
  {
    map k | k in m :: Cleaned(m[k])
  }

  /** A dictionary `validate_extracted_data` changes in place. */
  class Record {
    var data: map<string, Option<string>>

    constructor(d: map<string, Option<string>>)
      ensures data == d
    {
      data := d;
    }

    /**
     * `validate_extracted_data(data)`: every "null" or empty value becomes None, visiting the
     * keys one by one; the same dictionary is returned.
     */
    method Validate() returns (r: Record)
      modifies this
      ensures r == this
      ensures data == Validated(old(data))
    {
      var todo := data.Keys;
      ghost var start := data;
      while todo != {}
        invariant todo <= start.Keys && data.Keys == start.Keys
        invariant forall k :: k in start && k !in todo ==> data[k] == Cleaned(start[k])
        invariant forall k :: k in todo ==> data[k] == start[k]
        decreases todo
      {
        var k :| k in todo;
        if data[k] == Some("null") || data[k] == Some("") {
          data := data[k := None];
        }
        todo := todo - {k};
      }
      r := this;
    }
  }

  /** Validation keeps the keys, leaves no "null" or empty value, and changes no other value. */
  lemma ValidatedIs(m: map<string, Option<string>>)
    ensures Validated(m).Keys == m.Keys
    ensures forall k :: k in m ==> Validated(m)[k] != Some("null") && Validated(m)[k] != Some("")
    ensures forall k :: k in m && m[k] != Some("null") && m[k] != Some("") ==> Validated(m)[k] == m[k]
    ensures forall k :: k in m && (m[k] == Some("null") || m[k] == Some("")) ==> Validated(m)[k].None?
  {
  }

  /** Validating twice is validating once. */
  lemma ValidatedIdempotent(m: map<string, Option<string>>)
    ensures Validated(Validated(m)) == Validated(m)
  {
  }

  /** The extracted dictionary as Python values: every value a string. */
  function Lift(d: map<string, string>): map<string, Option<string>>
  {
    map k | k in d :: Some(d[k])
  }

  /**
   * Validating the extracted dictionary gives None for an entry exactly when its pattern did not
   * match or its value is "null" or empty, and the value otherwise; "Letter Type" is never None.
   */
  lemma ValidatedData(text: string, f: Field)
    ensures Key(f) in Validated(Lift(AuthorizationData(text)))
    ensures var v := FieldValue(f, text);
            Validated(Lift(AuthorizationData(text)))[Key(f)] ==
            if v.None? || v == Some("null") || v == Some("") then None else v
    ensures "Letter Type" in Validated(Lift(AuthorizationData(text)))
    ensures Validated(Lift(AuthorizationData(text)))["Letter Type"].Some?
  {
    FieldEntry(text, f);
    FieldEntry(text, LetterType);
    assert Key(LetterType) == "Letter Type";
    var t := LetterTypeOf(text);
    assert t == "Enhancement" || t == "Initial" || t == "Approval";
  }

}
