/**
 * `format_date`, the date canonicaliser nested in the ICICI authorization extractor
 * (icici.py, with the live copy in scan_spam_icici.py): the string is normalised, its spaces
 * become hyphens, and the eight `strptime` formats are tried in order; the first that parses
 * is rendered as `DD-Mon-YYYY`. An eight-digit string falls back to `%d%m%Y`; anything else
 * comes back as the hyphenated string.
 *
 * `strptime` is modelled for exactly the directives these formats use, with the patterns of
 * CPython's `_strptime`: `%d` is `3[01]|[12]\d|0[1-9]|[1-9]| [1-9]`, `%m` is
 * `1[0-2]|0[1-9]|[1-9]`, `%b` a month abbreviation in any case, `%Y` four digits and `%y` two
 * digits (69..99 read as 19xx, 00..68 as 20xx). The format is matched from the start with
 * backtracking over those alternatives (the first way that matches wins), the match must
 * cover the whole string, and the date must exist.
 */
module IciciDate {
  import opened Common
  import opened Text
  import opened IciciText

  /** One directive or literal character of a `strptime` format. */
  datatype Piece = Day | MonthName | MonthNumber | Year4 | Year2 | Sep(c: char)

  datatype Date = Date(day: nat, month: nat, year: nat)

  /** One way a directive can match: how many characters it takes and the number it reads. */
  datatype Choice = Choice(len: nat, value: nat)

  const MonthAbbr: seq<string> := ["Jan", "Feb", "Mar", "Apr", "May", "Jun", "Jul", "Aug", "Sep", "Oct", "Nov", "Dec"]

  /** `%d-%b-%Y`, `%d-%b-%y`, `%d%b%Y`, `%d%b%y`, `%d-%m-%Y`, `%d/%m/%Y`, `%d-%m-%y`, `%d/%m/%y`. */
  const Formats: seq<seq<Piece>> := [
    [Day, Sep('-'), MonthName, Sep('-'), Year4],
    [Day, Sep('-'), MonthName, Sep('-'), Year2],
    [Day, MonthName, Year4],
    [Day, MonthName, Year2],
    [Day, Sep('-'), MonthNumber, Sep('-'), Year4],
    [Day, Sep('/'), MonthNumber, Sep('/'), Year4],
    [Day, Sep('-'), MonthNumber, Sep('-'), Year2],
    [Day, Sep('/'), MonthNumber, Sep('/'), Year2]
  ]

  /** `%d%m%Y`, tried only for eight-digit strings. */
  const DigitsFormat: seq<Piece> := [Day, MonthNumber, Year4]

  // ---------------------------------------------------------------- calendar

  predicate IsLeap(y: nat) { y % 4 == 0 && (y % 100 != 0 || y % 400 == 0) }

  function DaysIn(month: nat, year: nat): nat
  {
    if month == 2 then (if IsLeap(year) then 29 else 28)
    else if month == 4 || month == 6 || month == 9 || month == 11 then 30
    else 31
  }

  /** A date `datetime` accepts. */
  predicate ValidDate(d: Date)
  {
    1 <= d.year <= 9999 && 1 <= d.month <= 12 && 1 <= d.day <= DaysIn(d.month, d.year)
  }

  // ---------------------------------------------------------------- the directives

  /** The ways `%d` matches at `i`, in the order of its alternatives. */
  function DayChoices(s: string, i: nat): (r: seq<Choice>)
    requires i <= |s|
    ensures |r| <= 2
    ensures forall k :: 0 <= k < |r| ==> i + r[k].len <= |s| && 1 <= r[k].value <= 31
  {
    var two :=
      if i + 2 <= |s| then
        if s[i] == '3' && (s[i + 1] == '0' || s[i + 1] == '1') then [Choice(2, 30 + DigitValue(s[i + 1]))]
        else if (s[i] == '1' || s[i] == '2') && IsDigit(s[i + 1]) then [Choice(2, 10 * DigitValue(s[i]) + DigitValue(s[i + 1]))]
        else if s[i] == '0' && '1' <= s[i + 1] <= '9' then [Choice(2, DigitValue(s[i + 1]))]
        else []
      else [];
    var one := if i < |s| && '1' <= s[i] <= '9' then [Choice(1, DigitValue(s[i]))] else [];
    var spaced := if i + 2 <= |s| && s[i] == ' ' && '1' <= s[i + 1] <= '9' then [Choice(2, DigitValue(s[i + 1]))] else [];
    two + one + spaced
  }

  /** The ways `%m` matches at `i`, in the order of its alternatives. */
  function MonthChoices(s: string, i: nat): (r: seq<Choice>)
    requires i <= |s|
    ensures |r| <= 2
    ensures forall k :: 0 <= k < |r| ==> i + r[k].len <= |s| && 1 <= r[k].value <= 12
  {
    var two :=
      if i + 2 <= |s| then
        if s[i] == '1' && '0' <= s[i + 1] <= '2' then [Choice(2, 10 + DigitValue(s[i + 1]))]
        else if s[i] == '0' && '1' <= s[i + 1] <= '9' then [Choice(2, DigitValue(s[i + 1]))]
        else []
      else [];
    var one := if i < |s| && '1' <= s[i] <= '9' then [Choice(1, DigitValue(s[i]))] else [];
    two + one
  }

  /** The month whose abbreviation, in any case, is at `i`, searching from table entry `k`. */
  function MonthNameFrom(s: string, i: nat, k: nat): (r: Option<nat>)
    requires i <= |s| && k <= 12
    ensures r.Some? ==> k < r.value <= 12 && i + 3 <= |s| && Lower(s[i..i + 3]) == Lower(MonthAbbr[r.value - 1])
    ensures r.None? ==> forall j :: k <= j < 12 ==> i + 3 > |s| || Lower(s[i..i + 3]) != Lower(MonthAbbr[j])
    decreases 12 - k
  {
    if k == 12 then None
    else if i + 3 <= |s| && Lower(s[i..i + 3]) == Lower(MonthAbbr[k]) then Some(k + 1)
    else MonthNameFrom(s, i, k + 1)
  }

  /** The value of four ASCII digits. */
  function Value4(a: char, b: char, c: char, d: char): nat
    requires IsDigit(a) && IsDigit(b) && IsDigit(c) && IsDigit(d)
  {
    1000 * DigitValue(a) + 100 * DigitValue(b) + 10 * DigitValue(c) + DigitValue(d)
  }

  /** The ways piece `p` matches at `i`. */
  function Choices(p: Piece, s: string, i: nat): (r: seq<Choice>)
    requires i <= |s|
    ensures |r| <= 2
    ensures forall k :: 0 <= k < |r| ==> i + r[k].len <= |s|
  {
    match p
    case Day => DayChoices(s, i)
    case MonthNumber => MonthChoices(s, i)
    case MonthName =>
      var m := MonthNameFrom(s, i, 0);
      if m.Some? then [Choice(3, m.value)] else []
    case Year4 =>
      if i + 4 <= |s| && IsDigit(s[i]) && IsDigit(s[i + 1]) && IsDigit(s[i + 2]) && IsDigit(s[i + 3])
      then [Choice(4, Value4(s[i], s[i + 1], s[i + 2], s[i + 3]))] else []
    case Year2 =>
      if i + 2 <= |s| && IsDigit(s[i]) && IsDigit(s[i + 1])
      then [Choice(2, 10 * DigitValue(s[i]) + DigitValue(s[i + 1]))] else []
    case Sep(c) => if i < |s| && s[i] == c then [Choice(1, 0)] else []
  }

  /** What reading `v` for piece `p` sets; `%y` maps 69..99 to 19xx and 00..68 to 20xx. */
  function SetField(p: Piece, d: Date, v: nat): Date
  {
    match p
    case Day => d.(day := v)
    case MonthName => d.(month := v)
    case MonthNumber => d.(month := v)
    case Year4 => d.(year := v)
    case Year2 => d.(year := if v <= 68 then v + 2000 else v + 1900)
    case Sep(_) => d
  }

  // ---------------------------------------------------------------- matching a format

  /** The first way, in backtracking order, in which `pieces` match `s` from `i`: where the match ends and the fields it read. */
  function ParseFrom(pieces: seq<Piece>, s: string, i: nat, d: Date): (r: Option<(nat, Date)>)
    requires i <= |s|
    ensures r.Some? ==> i <= r.value.0 <= |s|
    decreases |pieces|, 3
  {
    if |pieces| == 0 then Some((i, d))
    else TryChoices(Choices(pieces[0], s, i), pieces, s, i, d)
  }

  /** Try the choices of the first piece in order, each followed by the rest of the format. */
  function TryChoices(cs: seq<Choice>, pieces: seq<Piece>, s: string, i: nat, d: Date): (r: Option<(nat, Date)>)
    requires |pieces| > 0 && i <= |s| && |cs| <= 2
    requires forall k :: 0 <= k < |cs| ==> i + cs[k].len <= |s|
    ensures r.Some? ==> i <= r.value.0 <= |s|
    decreases |pieces|, |cs|
  {
    if |cs| == 0 then None
    else
      var r := ParseFrom(pieces[1..], s, i + cs[0].len, SetField(pieces[0], d, cs[0].value));
      if r.Some? then r else TryChoices(cs[1..], pieces, s, i, d)
  }

  /** `datetime.strptime(s, fmt)`: the date, when the format matches all of `s` and the date exists. */
  function StrpTime(fmt: seq<Piece>, s: string): (r: Option<Date>)
    ensures r.Some? ==> ValidDate(r.value)
  {
    match ParseFrom(fmt, s, 0, Date(1, 1, 1900))
    case None => None
    case Some((e, d)) => if e == |s| && ValidDate(d) then Some(d) else None
  }

  // ---------------------------------------------------------------- rendering

  function TwoDigits(n: nat): (r: string)
    requires n < 100
    ensures |r| == 2 && AllDigits(r)
  {
    [DigitChar(n / 10), DigitChar(n % 10)]
  }

  function FourDigits(n: nat): (r: string)
    requires n < 10000
    ensures |r| == 4 && AllDigits(r)
  {
    TwoDigits(n / 100) + TwoDigits(n % 100)
  }

  /** `date.strftime("%d-%b-%Y")`; the year is written with four digits. */
  function Render(d: Date): (r: string)
    requires ValidDate(d)
    ensures |r| == 11
  {
    TwoDigits(d.day) + "-" + MonthAbbr[d.month - 1] + "-" + FourDigits(d.year)
  }

  /** The two-digit-year correction: a year below 100 gets 1900 added above 50, else 2000. */
  function Century(d: Date): (r: Date)
    ensures r.day == d.day && r.month == d.month
    ensures d.year >= 100 ==> r == d
    ensures 0 < d.year < 100 ==> 100 <= r.year < 2100
  {
    if d.year < 100 then d.(year := d.year + (if d.year > 50 then 1900 else 2000)) else d
  }

  /** One round of the format loop: format `k` parses, the corrected date exists, and it is rendered. */
  function FormatWith(s: string, k: nat): (r: Option<string>)
    requires k < |Formats|
  {
    var d := StrpTime(Formats[k], s);
    if d.Some? && ValidDate(Century(d.value)) then Some(Render(Century(d.value))) else None
  }

  /** The first format from `k` on that succeeds. */
  function FirstFormat(s: string, k: nat): (r: Option<nat>)
    requires k <= |Formats|
    ensures r.Some? ==> k <= r.value < |Formats| && FormatWith(s, r.value).Some?
    ensures r.Some? ==> forall i :: k <= i < r.value ==> FormatWith(s, i).None?
    ensures r.None? ==> forall j :: k <= j < |Formats| ==> FormatWith(s, j).None?
    decreases |Formats| - k
  {
    if k == |Formats| then None
    else if FormatWith(s, k).Some? then Some(k)
    else FirstFormat(s, k + 1)
  }

  /** `normalize_text(date_str).replace(" ", "-")`. */
  function Hyphenated(s: string): string
  {
    Replace(Normalize(s), " ", "-")
  }

  /** What `format_date(date_str)` returns. */
  function FormattedDate(ds: Option<string>): (r: Option<string>)
  {
    if ds.None? || ds.value == "" then None
    else
      var s := Hyphenated(ds.value);
      var f := FirstFormat(s, 0);
      if f.Some? then FormatWith(s, f.value)
      else if |s| == 8 && AllDigits(s) && StrpTime(DigitsFormat, s).Some? then Some(Render(StrpTime(DigitsFormat, s).value))
      else Some(s)
  }

  /** The loop of `format_date`: the formats in order, the first that parses wins, then the digits fallback. */
  method FormatDate(ds: Option<string>) returns (r: Option<string>)
    ensures r == FormattedDate(ds)
  {
    if ds.None? || ds.value == "" {
      return None;
    }
    var s := Hyphenated(ds.value);
    var k := 0;
    while k < |Formats|
      invariant k <= |Formats|
      invariant FirstFormat(s, 0) == FirstFormat(s, k)
    {
      var d := StrpTime(Formats[k], s);
      if d.Some? && ValidDate(Century(d.value)) {
        return Some(Render(Century(d.value)));
      }
      k := k + 1;
    }
    if |s| == 8 && AllDigits(s) {
      var d := StrpTime(DigitsFormat, s);
      if d.Some? {
        return Some(Render(d.value));
      }
    }
    return Some(s);
  }

  // ---------------------------------------------------------------- properties

  /** A string `Render` produces. */
  ghost predicate IsRendered(r: string)
  {
    exists d :: ValidDate(d) && r == Render(d)
  }

  /**
   * `format_date` returns None exactly for missing or empty input; otherwise a rendered date
   * or, when nothing parses, the normalised string with its spaces made hyphens.
   */
  lemma FormattedDateShape(ds: Option<string>)
    ensures FormattedDate(ds).None? <==> ds.None? || ds.value == ""
    ensures FormattedDate(ds).Some? ==> IsRendered(FormattedDate(ds).value) || FormattedDate(ds).value == Hyphenated(ds.value)
  {
    if ds.Some? && ds.value != "" {
      var s := Hyphenated(ds.value);
      var f := FirstFormat(s, 0);
      if f.Some? {
        var d := StrpTime(Formats[f.value], s).value;
        assert ValidDate(Century(d)) && FormatWith(s, f.value) == Some(Render(Century(d)));
      } else if |s| == 8 && AllDigits(s) && StrpTime(DigitsFormat, s).Some? {
        assert ValidDate(StrpTime(DigitsFormat, s).value);
      }
    }
  }

  /** The first format that parses decides, with the two-digit-year correction applied. */
  lemma FirstFormatDecides(ds: Option<string>, k: nat)
    requires ds.Some? && ds.value != "" && k < |Formats|
    requires var s := Hyphenated(ds.value);
             StrpTime(Formats[k], s).Some? && ValidDate(Century(StrpTime(Formats[k], s).value))
    requires forall j :: 0 <= j < k ==> FormatWith(Hyphenated(ds.value), j).None?
    ensures FormattedDate(ds) == Some(Render(Century(StrpTime(Formats[k], Hyphenated(ds.value)).value)))
  {
    FirstFormatAt(Hyphenated(ds.value), 0, k);
  }

  lemma {:induction false} FirstFormatAt(s: string, i: nat, k: nat)
    requires i <= k < |Formats| && FormatWith(s, k).Some?
    requires forall j :: i <= j < k ==> FormatWith(s, j).None?
    ensures FirstFormat(s, i) == Some(k)
    decreases k - i
  {
    if i == k {
    } else {
      FirstFormatAt(s, i + 1, k);
      assert FirstFormat(s, i + 1) == Some(k);
    }
  }

  // ---------------------------------------------------------------- a rendered date is a fixed point

  const LowerMonths: seq<string> := ["jan", "feb", "mar", "apr", "may", "jun", "jul", "aug", "sep", "oct", "nov", "dec"]

  lemma MonthLower(k: nat)
    requires k < 12
    ensures |MonthAbbr[k]| == 3 && Lower(MonthAbbr[k]) == LowerMonths[k]
    ensures forall j :: 0 <= j < 3 ==> IsLetter(MonthAbbr[k][j])
  {
    var a := MonthAbbr[k];
    assert Lower(a) == [ToLower(a[0]), ToLower(a[1]), ToLower(a[2])];
  }

  lemma MonthsDistinct(j: nat, k: nat)
    requires j < k < 12
    ensures LowerMonths[j] != LowerMonths[k]
  {
  }

  lemma {:induction false} MonthNameFromAt(s: string, i: nat, k: nat, m: nat)
    requires i + 3 <= |s| && k < m <= 12 && s[i..i + 3] == MonthAbbr[m - 1]
    ensures MonthNameFrom(s, i, k) == Some(m)
    decreases 12 - k
  {
    MonthLower(m - 1);
    if k + 1 == m {
    } else {
      MonthLower(k);
      MonthsDistinct(k, m - 1);
      MonthNameFromAt(s, i, k + 1, m);
    }
  }

  lemma DigitCharValue(n: nat)
    requires n < 10
    ensures DigitValue(DigitChar(n)) == n
  {
  }

  lemma FourDigitsValue(n: nat)
    requires n < 10000
    ensures var f := FourDigits(n); Value4(f[0], f[1], f[2], f[3]) == n
  {
    var hi, lo := n / 100, n % 100;
    DigitCharValue(hi / 10);
    DigitCharValue(hi % 10);
    DigitCharValue(lo / 10);
    DigitCharValue(lo % 10);
    assert 10 * (hi / 10) + hi % 10 == hi;
    assert 10 * (lo / 10) + lo % 10 == lo;
    assert 100 * hi + lo == n;
  }

  /** The characters of a rendered date: the two day digits, hyphens, the month's letters and the four year digits. */
  lemma RenderLayout(d: Date)
    requires ValidDate(d)
    ensures var r := Render(d);
            r[..2] == TwoDigits(d.day) && r[2] == '-' && r[3..6] == MonthAbbr[d.month - 1] && r[6] == '-'
            && r[7..] == FourDigits(d.year)
  {
  }

  lemma RenderPlain(d: Date)
    requires ValidDate(d)
    ensures IsStripped(Render(d)) && NoSpecial(Render(d)) && !Contains(Render(d), " ")
  {
    var r := Render(d);
    RenderLayout(d);
    MonthLower(d.month - 1);
    assert forall k :: 0 <= k < 11 ==> IsDigit(r[k]) || r[k] == '-' || IsLetter(r[k]) by {
      forall k | 0 <= k < 11 ensures IsDigit(r[k]) || r[k] == '-' || IsLetter(r[k]) {
        if k < 2 { assert r[k] == r[..2][k]; }
        else if 3 <= k < 6 { assert r[k] == r[3..6][k - 3]; }
        else if 7 <= k { assert r[k] == r[7..][k - 7]; }
      }
    }
    assert IsDigit(r[0]) && IsDigit(r[10]);
  }

  /** One step of a match whose first choice for the first piece leads to a match of the rest. */
  lemma ParseFirstChoice(x: Piece, rest: seq<Piece>, s: string, i: nat, d: Date)
    requires i <= |s| && |Choices(x, s, i)| > 0
    requires var c := Choices(x, s, i)[0];
             ParseFrom(rest, s, i + c.len, SetField(x, d, c.value)).Some?
    ensures var c := Choices(x, s, i)[0];
            ParseFrom([x] + rest, s, i, d) == ParseFrom(rest, s, i + c.len, SetField(x, d, c.value))
  {
    assert ([x] + rest)[0] == x && ([x] + rest)[1..] == rest;
  }

  lemma DayAt(s: string, i: nat, day: nat)
    requires i + 2 <= |s| && 1 <= day <= 31 && s[i] == DigitChar(day / 10) && s[i + 1] == DigitChar(day % 10)
    ensures |Choices(Day, s, i)| > 0 && Choices(Day, s, i)[0] == Choice(2, day)
  {
    DigitCharValue(day / 10);
    DigitCharValue(day % 10);
  }

  lemma YearAt(s: string, i: nat, y: nat)
    requires y < 10000 && i + 4 <= |s| && s[i..i + 4] == FourDigits(y)
    ensures Choices(Year4, s, i) == [Choice(4, y)]
  {
    FourDigitsValue(y);
    var f := FourDigits(y);
    assert s[i] == f[0] && s[i + 1] == f[1] && s[i + 2] == f[2] && s[i + 3] == f[3];
  }

  lemma MonthAt(s: string, i: nat, m: nat)
    requires 1 <= m <= 12 && i + 3 <= |s| && s[i..i + 3] == MonthAbbr[m - 1]
    ensures Choices(MonthName, s, i) == [Choice(3, m)]
  {
    MonthNameFromAt(s, i, 0, m);
  }

  /** `-%Y` reads the year at the end of a rendered date. */
  lemma ParseYearTail(r: string, d: Date, d2: Date)
    requires ValidDate(d) && |r| == 11 && d2 == Date(d.day, d.month, 1900)
    requires r[6] == '-' && r[7..] == FourDigits(d.year)
    ensures ParseFrom([Sep('-'), Year4], r, 6, d2) == Some((11, d))
  {
    assert d2.(year := d.year) == d;
    YearAt(r, 7, d.year);
    assert ParseFrom([], r, 11, d) == Some((11, d));
    ParseFirstChoice(Year4, [], r, 7, d2);
    assert [Year4] == [Year4] + [];
    ParseFirstChoice(Sep('-'), [Year4], r, 6, d2);
  }

  /** `-%b-%Y` reads the tail of a rendered date. */
  lemma ParseLayoutTail(r: string, d: Date, d1: Date)
    requires ValidDate(d) && |r| == 11 && d1 == Date(d.day, 1, 1900)
    requires r[2] == '-' && r[3..6] == MonthAbbr[d.month - 1] && r[6] == '-' && r[7..] == FourDigits(d.year)
    ensures ParseFrom([Sep('-'), MonthName, Sep('-'), Year4], r, 2, d1) == Some((11, d))
  {
    ParseYearTail(r, d, d1.(month := d.month));
    MonthAt(r, 3, d.month);
    ParseFirstChoice(MonthName, [Sep('-'), Year4], r, 3, d1);
    ParseFirstChoice(Sep('-'), [MonthName, Sep('-'), Year4], r, 2, d1);
  }

  /** `%d` reads the two day digits in front of a tail `rest` that matches. */
  lemma ParseLayoutHead(r: string, day: nat, rest: seq<Piece>, res: Option<(nat, Date)>)
    requires 2 <= |r| && 1 <= day <= 31 && r[0] == DigitChar(day / 10) && r[1] == DigitChar(day % 10)
    requires res.Some? && ParseFrom(rest, r, 2, Date(day, 1, 1900)) == res
    ensures ParseFrom([Day] + rest, r, 0, Date(1, 1, 1900)) == res
  {
    DayAt(r, 0, day);
    assert SetField(Day, Date(1, 1, 1900), day) == Date(day, 1, 1900);
    ParseFirstChoice(Day, rest, r, 0, Date(1, 1, 1900));
  }

  /** `%d-%b-%Y` reads the layout of a rendered date back as that date. */
  lemma ParseLayout(r: string, d: Date)
    requires ValidDate(d) && |r| == 11
    requires r[0] == DigitChar(d.day / 10) && r[1] == DigitChar(d.day % 10)
    requires r[2] == '-' && r[3..6] == MonthAbbr[d.month - 1] && r[6] == '-' && r[7..] == FourDigits(d.year)
    ensures ParseFrom([Day] + [Sep('-'), MonthName, Sep('-'), Year4], r, 0, Date(1, 1, 1900)) == Some((11, d))
  {
    ParseLayoutTail(r, d, Date(d.day, 1, 1900));
    ParseLayoutHead(r, d.day, [Sep('-'), MonthName, Sep('-'), Year4], Some((11, d)));
  }

  lemma HyphenatedRendered(d: Date)
    requires ValidDate(d)
    ensures Hyphenated(Render(d)) == Render(d)
  {
    var r := Render(d);
    RenderPlain(d);
    NormalizeFixed(r);
    ReplaceAbsent(r, " ", "-");
  }

  lemma StrpTimeRendered(d: Date)
    requires ValidDate(d)
    ensures StrpTime(Formats[0], Render(d)) == Some(d)
  {
    var r := Render(d);
    RenderLayout(d);
    assert r[0] == r[..2][0] && r[1] == r[..2][1];
    ParseLayout(r, d);
    assert Formats[0] == [Day] + [Sep('-'), MonthName, Sep('-'), Year4];
  }

  /**
   * Formatting a rendered date gives it back unchanged, provided its year is at least 100
   * (a smaller year, which only the eight-digit fallback can produce, is corrected again).
   */
  lemma RenderedIsFixed(d: Date)
    requires ValidDate(d) && d.year >= 100
    ensures FormattedDate(Some(Render(d))) == Some(Render(d))
  {
    var r := Render(d);
    HyphenatedRendered(d);
    StrpTimeRendered(d);
    assert FormatWith(r, 0) == Some(r);
    FirstFormatAt(r, 0, 0);
  }
}
