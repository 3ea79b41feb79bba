/**
 * `extract_policy_period` (icici.py:111-262, copied in scan_spam_icici.py:277-423):
 * the Policy Period of an ICICI letter, reconstructed from a labelled line, the lines after
 * it, or an unlabelled date range, and then reformatted.
 *
 * The patterns involved are a handful of fixed shapes, each decided here directly:
 *   date     `\d{1,2}-[A-Za-z]{3}-\d{4}`
 *   range    date `\s+to\s+` date                      (IGNORECASE)
 *   partial  date `\s+to\s+` `\d{1,2}-[A-Za-z]{3}-`    (IGNORECASE)
 *   label    `Policy\s+Period`                         (IGNORECASE)
 * None of them needs backtracking: `\d{1,2}` followed by `-` takes two digits exactly when
 * two are there, and each `\s+` is followed by a non-space.
 */
module PolicyPeriod {
  import opened Common
  import opened Text
  import opened IciciText

  // ---------------------------------------------------------------- shapes

  /** `\d{1,2}-[A-Za-z]{3}-` as a whole string. */
  predicate IsDayMonth(t: string)
  {
    (|t| == 7 && IsDigit(t[0]) && IsDigit(t[1]) && t[2] == '-'
     && IsLetter(t[3]) && IsLetter(t[4]) && IsLetter(t[5]) && t[6] == '-')
    || (|t| == 6 && IsDigit(t[0]) && t[1] == '-'
        && IsLetter(t[2]) && IsLetter(t[3]) && IsLetter(t[4]) && t[5] == '-')
  }

  /** `\d{1,2}-[A-Za-z]{3}-\d{4}` as a whole string. */
  predicate IsDate(t: string)
  {
    |t| >= 10 && IsDayMonth(t[..|t| - 4]) && AllDigits(t[|t| - 4..])
  }

  /** A date starts and ends with a digit. */
  lemma DateEnds(t: string)
    requires IsDate(t)
    ensures IsDigit(t[0]) && IsDigit(t[|t| - 1])
  {
    assert t[0] == t[..|t| - 4][0];
    assert t[|t| - 1] == t[|t| - 4..][3];
  }

  /** Where `\d{1,2}-[A-Za-z]{3}-` matched at `p` ends. */
  function DayMonthAt(s: string, p: nat): (r: Option<nat>)
    ensures r.Some? ==> p < r.value <= |s| && IsDayMonth(s[p..r.value])
  {
    if p + 7 <= |s| && IsDayMonth(s[p..p + 7]) then Some(p + 7)
    else if p + 6 <= |s| && IsDayMonth(s[p..p + 6]) then Some(p + 6)
    else None
  }

  /** Where `\d{1,2}-[A-Za-z]{3}-\d{4}` matched at `p` ends. */
  function DateAt(s: string, p: nat): (r: Option<nat>)
    ensures r.Some? ==> p < r.value <= |s| && IsDate(s[p..r.value])
  {
    match DayMonthAt(s, p)
    case None => None
    case Some(q) =>
      if q + 4 <= |s| && AllDigits(s[q..q + 4]) then
        assert s[p..q + 4][..q + 4 - p - 4] == s[p..q];
        assert s[p..q + 4][q + 4 - p - 4..] == s[q..q + 4];
        Some(q + 4)
      else None
  }

  /** `to` under IGNORECASE at `t`. */
  predicate ToAt(s: string, t: nat)
  {
    t + 2 <= |s| && ToLower(s[t]) == 't' && ToLower(s[t + 1]) == 'o'
  }

  /** A located shape: `s[start..end]`; for a range, the dates are `[start..first]` and `[second..end]`. */
  datatype Hit = Hit(start: nat, first: nat, second: nat, end: nat)

  predicate HitIn(h: Hit, s: string, p: nat)
  {
    h.start == p && p <= h.first <= h.second <= h.end <= |s| && h.start < h.end
  }

  /** date `\s+to\s+` (date when `full`, else the day-month prefix) at `p`. */
  function RangeAt(s: string, p: nat, full: bool): (r: Option<Hit>)
    ensures r.Some? ==> HitIn(r.value, s, p) && p < r.value.first < r.value.second < r.value.end
    ensures r.Some? ==> IsDate(s[p..r.value.first])
    ensures r.Some? && full ==> IsDate(s[r.value.second..r.value.end])
  {
    match DateAt(s, p)
    case None => None
    case Some(e1) =>
      var t := e1 + SpaceRun(s, e1);
      if t == e1 || !ToAt(s, t) then None
      else
        var s2 := t + 2 + SpaceRun(s, t + 2);
        if s2 == t + 2 then None
        else
          match (if full then DateAt(s, s2) else DayMonthAt(s, s2))
          case None => None
          case Some(e2) => Some(Hit(p, e1, s2, e2))
  }

  /** Compares `s[p..]` with the lower-case word `w` under IGNORECASE. */
  predicate WordAtCi(s: string, p: nat, w: string)
  {
    p + |w| <= |s| && forall k :: 0 <= k < |w| ==> ToLower(s[p + k]) == w[k]
  }

  /** `Policy\s+Period` at `p`. */
  function LabelAt(s: string, p: nat): (r: Option<Hit>)
    ensures r.Some? ==> HitIn(r.value, s, p)
  {
    if !WordAtCi(s, p, "policy") then None
    else
      var w := SpaceRun(s, p + 6);
      if w == 0 || !WordAtCi(s, p + 6 + w, "period") then None
      else Some(Hit(p, p + 12 + w, p + 12 + w, p + 12 + w))
  }

  datatype Shape = DateShape | RangeShape | PartialShape | LabelShape

  function ShapeAt(sh: Shape, s: string, p: nat): (r: Option<Hit>)
    ensures r.Some? ==> HitIn(r.value, s, p)
  {
    match sh
    case DateShape =>
      (match DateAt(s, p) case None => None case Some(e) => Some(Hit(p, e, e, e)))
    case RangeShape => RangeAt(s, p, true)
    case PartialShape => RangeAt(s, p, false)
    case LabelShape => LabelAt(s, p)
  }

  /** `re.search` for a shape: its leftmost occurrence at or after `from`. */
  function FindShapeFrom(sh: Shape, s: string, from: nat): (r: Option<Hit>)
    ensures r.Some? ==> from <= r.value.start && ShapeAt(sh, s, r.value.start) == r
    ensures r.Some? ==> forall k :: from <= k < r.value.start ==> ShapeAt(sh, s, k).None?
    ensures r.None? ==> forall k :: from <= k ==> ShapeAt(sh, s, k).None?
    decreases |s| - from
  {
    if from > |s| then None
    else
      var h := ShapeAt(sh, s, from);
      if h.Some? then h else FindShapeFrom(sh, s, from + 1)
  }

  function FindShape(sh: Shape, s: string): (r: Option<Hit>)
    ensures r.Some? ==> HitIn(r.value, s, r.value.start) && ShapeAt(sh, s, r.value.start) == r
    ensures r.Some? ==> forall k :: 0 <= k < r.value.start ==> ShapeAt(sh, s, k).None?
    ensures r.None? ==> forall k :: 0 <= k ==> ShapeAt(sh, s, k).None?
  {
    FindShapeFrom(sh, s, 0)
  }

  /** The text a search for a shape found. */
  function HitText(s: string, h: Hit): string
    requires HitIn(h, s, h.start)
  {
    s[h.start..h.end]
  }

  /** `re.match(r"^(\d{4})", s)`. */
  predicate StartsWithYear(s: string)
  {
    |s| >= 4 && AllDigits(s[..4])
  }

  // ---------------------------------------------------------------- the label line

  /** A line (after `normalize_text`) that `Policy\s+Period` finds. */
  predicate IsLabelLine(line: string)
  {
    FindShape(LabelShape, Normalize(line)).Some?
  }

  /**
   * `re.search(r"Policy\s+Period\s*:?\s*(.*)", line, re.I).group(1).strip()`: everything
   * after the first label, an optional colon and the whitespace around it.
   */
  function LabelValue(line: string): (v: string)
    requires FindShape(LabelShape, line).Some?
    ensures IsStripped(v)
  {
    var e := FindShape(LabelShape, line).value.end;
    var q := e + SpaceRun(line, e);
    var c := if q < |line| && line[q] == ':' then q + 1 else q;
    Strip(line[c + SpaceRun(line, c)..])
  }

  /** The value of the `i`th line, which is a label line. */
  function ValueOf(lines: seq<string>, i: nat): string
    requires i < |lines| && IsLabelLine(lines[i])
  {
    LabelValue(Normalize(lines[i]))
  }

  /** The first line at or after `k` that is not blank, or `|lines|`. */
  function NextNonBlank(lines: seq<string>, k: nat): (r: nat)
    requires k <= |lines|
    ensures k <= r <= |lines|
    ensures forall j :: k <= j < r ==> Strip(lines[j]) == ""
    ensures r < |lines| ==> Strip(lines[r]) != ""
    decreases |lines| - k
  {
    if k < |lines| && Strip(lines[k]) == "" then NextNonBlank(lines, k + 1) else k
  }

  /** The state after examining one label line: the value so far and whether the search stops. */
  datatype Step = Step(value: Option<string>, stop: bool)

  /**
   * An empty (or ":") label value looks at the next non-blank line `m`: see `NextLineStep`.
   */
  function EmptyValueStep(lines: seq<string>, i: nat, ppv: Option<string>): (r: Step)
    requires i < |lines|
    ensures !r.stop ==> r.value == ppv
    ensures r.stop ==> Truthy(r.value)
  {
    var m := NextNonBlank(lines, i + 1);
    if m == |lines| then Step(ppv, false)
    else NextLineStep(Normalize(lines[m]), YearAfter(lines, m), ppv)
  }

  /** The year starting the first non-blank line after line `m`, if that line starts with one. */
  function YearAfter(lines: seq<string>, m: nat): (r: Option<string>)
    requires m < |lines|
    ensures r.Some? ==> |r.value| == 4 && AllDigits(r.value)
  {
    var y := NextNonBlank(lines, m + 1);
    if y < |lines| && StartsWithYear(Normalize(lines[y])) then Some(Normalize(lines[y])[..4]) else None
  }

  /**
   * The next non-blank line `next` after an empty label value: a full range there, or a
   * partial range completed by the `year` of the line after it, stops the search; so does the
   * whole of `next` when it has a digit and nothing was found before.
   */
  function NextLineStep(next: string, year: Option<string>, ppv: Option<string>): (r: Step)
    ensures !r.stop ==> r.value == ppv
    ensures r.stop ==> Truthy(r.value)
  {
    var range := FindShape(RangeShape, next);
    if range.Some? then Step(Some(HitText(next, range.value)), true)
    else
      var partial := FindShape(PartialShape, next);
      if partial.Some? && year.Some? then Step(Some(HitText(next, partial.value) + year.value), true)
      else if !Truthy(ppv) && HasDigit(next) then Step(Some(next), true)
      else Step(ppv, false)
  }

  /** `re.match(r"(partial)$", cv, re.I)`: the value is exactly a partial range. */
  predicate IsIncomplete(cv: string)
  {
    var h := RangeAt(cv, 0, false);
    h.Some? && (h.value.end == |cv| || (h.value.end == |cv| - 1 && cv[h.value.end] == '\n'))
  }

  /**
   * What one look-ahead line `nl` makes of an incomplete value `cv`: a line starting with a
   * year completes it with that year; a line holding a date supplies the end date when the
   * value has a date and no "to".
   */
  function Completion(nl: string, cv: string): (r: Option<string>)
    ensures r.Some? ==> r.value != ""
    ensures StartsWithYear(nl) && EndsWith(Strip(cv), "-") ==> r == Some(Strip(cv) + nl[..4])
    ensures StartsWithYear(nl) && !EndsWith(Strip(cv), "-") ==> r == Some(Strip(cv) + "-" + nl[..4])
    ensures !StartsWithYear(nl) && r.Some? ==>
              !Contains(cv, "to") && FindShape(DateShape, cv).Some? && FindShape(DateShape, nl).Some?
  {
    if StartsWithYear(nl) then
      var base := Strip(cv);
      Some((if EndsWith(base, "-") then base else base + "-") + nl[..4])
    else
      var date := FindShape(DateShape, nl);
      if date.Some? && !Contains(cv, "to") && FindShape(DateShape, cv).Some? then
        Some(Strip(cv) + " to " + HitText(nl, date.value))
      else None
  }

  /** The look-ahead: the first line among `[from, stop)` that completes `cv`. */
  function DashScan(lines: seq<string>, cv: string, from: nat, stop: nat): (r: Option<string>)
    requires stop <= |lines|
    ensures r.Some? ==> r.value != ""
    decreases stop - from
  {
    if from >= stop then None
    else
      var c := Completion(Normalize(lines[from]), cv);
      if c.Some? then c else DashScan(lines, cv, from + 1, stop)
  }

  function Min(a: nat, b: nat): nat { if a < b then a else b }

  /** What a non-empty label value `cv` found on line `i` does to the search state. */
  function ValueStep(lines: seq<string>, i: nat, cv: string, ppv: Option<string>): (r: Step)
    requires i < |lines|
    ensures r.stop ==> Truthy(r.value)
  {
    var complete := FindShape(RangeShape, cv);
    if complete.Some? then Step(Some(HitText(cv, complete.value)), true)
    else if IsIncomplete(cv) || EndsWith(cv, "-") then
      var d := DashScan(lines, cv, i + 1, Min(i + 5, |lines|));
      var v := if d.Some? then d else ppv;
      Step(v, Truthy(v))
    else if HasDigit(cv) then Step(Some(cv), false)
    else Step(ppv, false)
  }

  /** What the `i`th line, a label line, does to the search state. */
  function LabelStep(lines: seq<string>, i: nat, ppv: Option<string>): (r: Step)
    requires i < |lines| && IsLabelLine(lines[i])
    ensures r.stop ==> Truthy(r.value)
  {
    var cv := ValueOf(lines, i);
    var e := if cv == "" || cv == ":" then EmptyValueStep(lines, i, ppv) else Step(ppv, false);
    if e.stop then e else ValueStep(lines, i, cv, e.value)
  }

  /** The first pass from line `i` on, with `ppv` found so far. */
  function FirstPass(lines: seq<string>, i: nat, ppv: Option<string>): Option<string>
    requires i <= |lines|
    decreases |lines| - i
  {
    if i == |lines| then ppv
    else if IsLabelLine(lines[i]) then
      var st := LabelStep(lines, i, ppv);
      if st.stop then st.value else FirstPass(lines, i + 1, st.value)
    else FirstPass(lines, i + 1, ppv)
  }

  /** The second pass: the first full range on any line. */
  function SecondPass(lines: seq<string>, i: nat): Option<string>
    requires i <= |lines|
    decreases |lines| - i
  {
    if i == |lines| then None
    else
      var line := Normalize(lines[i]);
      var range := FindShape(RangeShape, line);
      if range.Some? then Some(HitText(line, range.value)) else SecondPass(lines, i + 1)
  }

  // ---------------------------------------------------------------- final cleanup

  /** `re.sub(r"\s*to\s*", " to ", s[i..])`. */
  function SubTo(s: string, i: nat): string
    requires i <= |s|
    decreases |s| - i
  {
    if i == |s| then ""
    else
      match ToMatch(s, i)
      case Some(e) => " to " + SubTo(s, e)
      case None => [s[i]] + SubTo(s, i + 1)
  }

  /** Where a match of `\s*to\s*` starting at `i` ends, if one does. */
  function ToMatch(s: string, i: nat): (r: Option<nat>)
    requires i <= |s|
    ensures r.Some? ==> i + 2 <= r.value <= |s|
  {
    var q := i + SpaceRun(s, i);
    if q + 2 <= |s| && s[q] == 't' && s[q + 1] == 'o' then Some(q + 2 + SpaceRun(s, q + 2)) else None
  }

  /** `re.sub(r"-\s*$", "", s)` for a stripped `s`: one trailing hyphen goes. */
  function DropTrailingDash(s: string): string
  {
    if |s| > 0 && s[|s| - 1] == '-' then s[..|s| - 1] else s
  }

  /** `re.match(range)` at the start rebuilt as "D1 to D2"; anything after the range is dropped. */
  function Reformat(b: string): (r: string)
    requires IsStripped(b)
    ensures IsStripped(r)
    ensures RangeAt(b, 0, true).None? ==> r == b
    ensures RangeAt(b, 0, true).Some? ==>
              var h := RangeAt(b, 0, true).value; r == b[..h.first] + " to " + b[h.second..h.end]
  {
    match RangeAt(b, 0, true)
    case None => b
    case Some(h) =>
      var d1 := b[0..h.first];
      var d2 := b[h.second..h.end];
      DateEnds(d1);
      DateEnds(d2);
      var r := d1 + " to " + d2;
      assert r[0] == d1[0];
      assert r[|r| - 1] == d2[|d2| - 1];
      r
  }

  /** The final reformatting of a found value. */
  function Cleanup(v: string): (r: string)
    ensures IsStripped(r)
  {
    Reformat(Strip(DropTrailingDash(Strip(SubTo(v, 0)))))
  }

  /** `extract_policy_period(text)`. */
  function PolicyPeriodOf(text: string): Option<string>
  {
    var lines := Lines(text);
    var v := FirstPass(lines, 0, None);
    var w := if Truthy(v) then v else (var u := SecondPass(lines, 0); if u.Some? then u else v);
    if Truthy(w) then Some(Cleanup(w.value)) else w
  }

  // ---------------------------------------------------------------- the procedure

  /** The look-ahead over lines `i+1 .. min(i+5, len(lines))-1` of an incomplete value. */
  method LookAhead(lines: seq<string>, i: nat, cv: string) returns (found: Option<string>)
    requires i < |lines|
    ensures found == DashScan(lines, cv, i + 1, Min(i + 5, |lines|))
  {
    var stop := Min(i + 5, |lines|);
    var j := i + 1;
    while j < stop
      invariant i + 1 <= j
      invariant DashScan(lines, cv, i + 1, stop) == DashScan(lines, cv, j, stop)
    {
      found := CompleteFrom(Normalize(lines[j]), cv);
      DashScanStep(lines, cv, j, stop);
      if found.Some? {
        return;
      }
      j := j + 1;
    }
    DashScanEnd(lines, cv, j, stop);
    found := None;
  }

  /** One look-ahead line: a year completes the value, else an end date does. */
  method CompleteFrom(nextLine: string, cv: string) returns (found: Option<string>)
    ensures found == Completion(nextLine, cv)
  {
    if StartsWithYear(nextLine) {
      var baseValue := Strip(cv);
      if !EndsWith(baseValue, "-") {
        baseValue := baseValue + "-";
      }
      return Some(baseValue + nextLine[..4]);
    }
    var dateMatch := FindShape(DateShape, nextLine);
    if dateMatch.Some? && !Contains(cv, "to") {
      if FindShape(DateShape, cv).Some? {
        return Some(Strip(cv) + " to " + HitText(nextLine, dateMatch.value));
      }
    }
    return None;
  }

  lemma DashScanStep(lines: seq<string>, cv: string, j: nat, stop: nat)
    requires j < stop <= |lines|
    ensures DashScan(lines, cv, j, stop) == (var c := Completion(Normalize(lines[j]), cv);
                                             if c.Some? then c else DashScan(lines, cv, j + 1, stop))
  {
  }

  lemma DashScanEnd(lines: seq<string>, cv: string, j: nat, stop: nat)
    requires stop <= j && stop <= |lines|
    ensures DashScan(lines, cv, j, stop) == None
  {
  }


  /** Skips blank lines from `k`. */
  method SkipBlank(lines: seq<string>, k: nat) returns (n: nat)
    requires k <= |lines|
    ensures n == NextNonBlank(lines, k)
  {
    n := k;
    while n < |lines| && Strip(lines[n]) == ""
      invariant k <= n <= |lines|
      invariant NextNonBlank(lines, k) == NextNonBlank(lines, n)
    {
      n := n + 1;
    }
  }

  /** The year at the start of the first non-blank line after line `m`, if it starts with one. */
  method FindYearAfter(lines: seq<string>, m: nat) returns (year: Option<string>)
    requires m < |lines|
    ensures year == YearAfter(lines, m)
  {
    var yearIndex := SkipBlank(lines, m + 1);
    if yearIndex < |lines| {
      var yearLine := Normalize(lines[yearIndex]);
      if StartsWithYear(yearLine) {
        return Some(yearLine[..4]);
      }
    }
    return None;
  }

  /** The next non-blank line `nextLine` after an empty label value. */
  method ResolveNextLine(nextLine: string, year: Option<string>, ppv: Option<string>) returns (st: Step)
    ensures st == NextLineStep(nextLine, year, ppv)
  {
    var rangeMatch := FindShape(RangeShape, nextLine);
    if rangeMatch.Some? {
      return Step(Some(HitText(nextLine, rangeMatch.value)), true);
    }
    var partialMatch := FindShape(PartialShape, nextLine);
    if partialMatch.Some? && year.Some? {
      return Step(Some(HitText(nextLine, partialMatch.value) + year.value), true);
    }
    if !Truthy(ppv) && HasDigit(nextLine) {
      return Step(Some(nextLine), true);
    }
    return Step(ppv, false);
  }

  /**
   * The empty-value branch for the label on line `i`. The year line after the next line is
   * looked up here even when the next line holds no partial range; it is only used when it does.
   */
  method ResolveEmptyValue(lines: seq<string>, i: nat, ppv: Option<string>) returns (st: Step)
    requires i < |lines|
    ensures st == EmptyValueStep(lines, i, ppv)
  {
    var nextIndex := SkipBlank(lines, i + 1);
    if nextIndex < |lines| {
      var year := FindYearAfter(lines, nextIndex);
      st := ResolveNextLine(Normalize(lines[nextIndex]), year, ppv);
    } else {
      st := Step(ppv, false);
    }
  }

  /** The branches for a label value `cv` that was not resolved by the empty-value branch. */
  method ResolveValue(lines: seq<string>, i: nat, cv: string, ppv: Option<string>) returns (st: Step)
    requires i < |lines|
    ensures st == ValueStep(lines, i, cv, ppv)
  {
    var completeMatch := FindShape(RangeShape, cv);
    if completeMatch.Some? {
      return Step(Some(HitText(cv, completeMatch.value)), true);
    }
    var value := ppv;
    if IsIncomplete(cv) || EndsWith(cv, "-") {
      var found := LookAhead(lines, i, cv);
      if found.Some? {
        value := found;
      }
      return Step(value, Truthy(value));
    } else if HasDigit(cv) {
      value := Some(cv);
    }
    return Step(value, false);
  }

  /** What the `i`th line does when it carries the label (the body of the first pass). */
  method ExamineLabel(lines: seq<string>, i: nat, ppv: Option<string>) returns (st: Step)
    requires i < |lines| && IsLabelLine(lines[i])
    ensures st == LabelStep(lines, i, ppv)
  {
    var cv := LabelValue(Normalize(lines[i]));
    assert cv == ValueOf(lines, i);
    var value := ppv;
    if cv == "" || cv == ":" {
      st := ResolveEmptyValue(lines, i, ppv);
      if st.stop {
        return;
      }
      value := st.value;
    }
    st := ResolveValue(lines, i, cv, value);
  }

  /** The first pass: label lines, in order, until one stops the search. */
  method ScanLabels(lines: seq<string>) returns (ppv: Option<string>)
    ensures ppv == FirstPass(lines, 0, None)
  {
    ppv := None;
    var i := 0;
    while i < |lines|
      invariant i <= |lines|
      invariant FirstPass(lines, i, ppv) == FirstPass(lines, 0, None)
    {
      var line := Normalize(lines[i]);
      if FindShape(LabelShape, line).Some? {
        assert IsLabelLine(lines[i]);
        var st := ExamineLabel(lines, i, ppv);
        ppv := st.value;
        if st.stop {
          return;
        }
      }
      i := i + 1;
    }
  }

  /** The second pass: the first line holding a full range. */
  method ScanRanges(lines: seq<string>) returns (found: Option<string>)
    ensures found == SecondPass(lines, 0)
  {
    found := None;
    for k := 0 to |lines|
      invariant SecondPass(lines, 0) == SecondPass(lines, k)
    {
      var normalizedLine := Normalize(lines[k]);
      var rangeMatch := FindShape(RangeShape, normalizedLine);
      if rangeMatch.Some? {
        return Some(HitText(normalizedLine, rangeMatch.value));
      }
    }
  }

  /** `extract_policy_period(text)`. */
  method ExtractPolicyPeriod(text: string) returns (ppv: Option<string>)
    ensures ppv == PolicyPeriodOf(text)
  {
    var lines := Lines(text);
    ppv := ScanLabels(lines);
    if !Truthy(ppv) {
      var found := ScanRanges(lines);
      if found.Some? {
        ppv := found;
      }
    }
    if Truthy(ppv) {
      ppv := Some(Cleanup(ppv.value));
    }
  }
}
