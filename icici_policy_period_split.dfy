/**
 * The split-year reconstruction of `extract_policy_period` (icici.py:130-220, copied in
 * scan_spam_icici.py:296-386): a range whose end year was wrapped onto a line of its own,
 * "Policy Period: 01-Apr-2023 to 31-Mar-" followed by "2024", comes out as
 * "01-Apr-2023 to 31-Mar-2024".
 */
module PolicyPeriodSplit {
  import opened Common
  import opened Text
  import opened IciciText
  import opened PolicyPeriod
  import opened PolicyPeriodFacts

  // ---------------------------------------------------------------- blank lines

  /** A blank line normalises to the empty string. */
  lemma BlankNormalize(s: string)
    requires Strip(s) == ""
    ensures Normalize(s) == ""
  {
    var r := Normalize(s);
    if r != "" {
      var x := Replaced(s);
      ReplacedIsMap(s);
      var a: nat :| OccursAt(x, r, a);
      assert x[a] == r[0];
      assert !IsSpace(NormChar(s[a]));
      assert !IsSpace(s[a]);
      StripKeepsNonSpace(s, a);
      assert false;
    }
  }

  /** An empty line completes nothing. */
  lemma EmptyCompletesNothing(cv: string)
    ensures Completion("", cv) == None
  {
    assert !StartsWithYear("");
    assert FindShape(DateShape, "").None?;
  }

  /** A blank line completes nothing, so the look-ahead moves past it. */
  lemma DashScanBlankStep(lines: seq<string>, cv: string, from: nat, stop: nat)
    requires from < stop <= |lines| && Strip(lines[from]) == ""
    ensures DashScan(lines, cv, from, stop) == DashScan(lines, cv, from + 1, stop)
  {
    var nl := Normalize(lines[from]);
    BlankNormalize(lines[from]);
    EmptyCompletesNothing(cv);
    assert Completion(nl, cv) == None;
    DashScanStep(lines, cv, from, stop);
  }

  /** The look-ahead passes over blank lines to the next non-blank one. */
  lemma {:induction false} DashScanToNext(lines: seq<string>, cv: string, from: nat, stop: nat)
    requires from <= stop <= |lines| && NextNonBlank(lines, from) < stop
    ensures DashScan(lines, cv, from, stop) == DashScan(lines, cv, NextNonBlank(lines, from), stop)
    decreases stop - from
  {
    if Strip(lines[from]) == "" {
      var m := NextNonBlank(lines, from + 1);
      assert NextNonBlank(lines, from) == m;
      calc {
        DashScan(lines, cv, from, stop);
        == { DashScanBlankStep(lines, cv, from, stop); }
        DashScan(lines, cv, from + 1, stop);
        == { DashScanToNext(lines, cv, from + 1, stop); }
        DashScan(lines, cv, m, stop);
      }
    } else {
      assert NextNonBlank(lines, from) == from;
    }
  }

  // ---------------------------------------------------------------- the year line

  /** The first non-blank line after line `i` lies within the look-ahead and starts with a year. */
  predicate YearWithin(lines: seq<string>, i: nat)
  {
    i < |lines| && NextNonBlank(lines, i + 1) < Min(i + 5, |lines|)
    && StartsWithYear(Normalize(lines[NextNonBlank(lines, i + 1)]))
  }

  /** The year that line starts with. */
  function LeadYear(lines: seq<string>, i: nat): (y: string)
    requires YearWithin(lines, i)
    ensures |y| == 4 && AllDigits(y)
  {
    var nl := Normalize(lines[NextNonBlank(lines, i + 1)]);
    assert forall k :: 0 <= k < 4 ==> nl[..4][k] == nl[k];
    nl[..4]
  }

  /** The look-ahead appends that year to a stripped value that ends in "-". */
  lemma YearCompletes(lines: seq<string>, i: nat, cv: string)
    requires YearWithin(lines, i) && IsStripped(cv) && EndsWith(cv, "-")
    ensures DashScan(lines, cv, i + 1, Min(i + 5, |lines|)) == Some(cv + LeadYear(lines, i))
  {
    var m := NextNonBlank(lines, i + 1);
    var stop := Min(i + 5, |lines|);
    var nl := Normalize(lines[m]);
    StripStripped(cv);
    assert Completion(nl, cv) == Some(cv + nl[..4]);
    DashScanToNext(lines, cv, i + 1, stop);
    DashScanStep(lines, cv, m, stop);
    assert DashScan(lines, cv, m, stop) == Some(cv + nl[..4]);
  }

  /** A value ending in "-" that the look-ahead completes stops the search with that completion. */
  lemma ValueStepDash(lines: seq<string>, i: nat, cv: string, v: string)
    requires i < |lines| && FindShape(RangeShape, cv).None? && EndsWith(cv, "-")
    requires DashScan(lines, cv, i + 1, Min(i + 5, |lines|)) == Some(v)
    ensures ValueStep(lines, i, cv, None) == Step(Some(v), true)
  {
  }

  /** On the first label line, a value ending in "-" and a year line in the look-ahead decide the search. */
  lemma SplitYearPass(lines: seq<string>, i: nat)
    requires FirstLabel(lines, i) && YearWithin(lines, i)
    requires FindShape(RangeShape, ValueOf(lines, i)).None? && EndsWith(ValueOf(lines, i), "-")
    ensures FirstPass(lines, 0, None) == Some(ValueOf(lines, i) + LeadYear(lines, i))
  {
    var cv := ValueOf(lines, i);
    var v := cv + LeadYear(lines, i);
    assert cv != "" && cv != ":" by {
      assert cv[|cv| - 1..] == "-";
    }
    YearCompletes(lines, i, cv);
    ValueStepDash(lines, i, cv, v);
    LabelStepValue(lines, i, None);
    FirstLabelStops(lines, i, v);
  }

  /** When the first label line stops the search with a value, the first pass yields that value. */
  lemma FirstLabelStops(lines: seq<string>, i: nat, v: string)
    requires FirstLabel(lines, i) && LabelStep(lines, i, None) == Step(Some(v), true)
    ensures FirstPass(lines, 0, None) == Some(v)
  {
    FirstPassSkip(lines, 0, i, None);
    FirstPassLabel(lines, i, None);
  }

  // ---------------------------------------------------------------- the cleanup of "D1 to D-Mon-" + year

  /** How a partial range match at `p` is laid out: as `Layout`, with a day-month prefix in place of the second date. */
  lemma PartialLayout(s: string, p: nat) returns (t: nat)
    requires RangeAt(s, p, false).Some?
    ensures var h := RangeAt(s, p, false).value;
            DateAt(s, p) == Some(h.first) && h.first < t && t == h.first + SpaceRun(s, h.first)
            && ToAt(s, t) && t + 2 < h.second && h.second == t + 2 + SpaceRun(s, t + 2)
            && DayMonthAt(s, h.second) == Some(h.end)
  {
    var e1 := DateAt(s, p).value;
    t := e1 + SpaceRun(s, e1);
  }

  /** A day-month prefix followed by four digits is a date. */
  lemma DayMonthYear(dm: string, year: string)
    requires IsDayMonth(dm) && |year| == 4 && AllDigits(year)
    ensures IsDate(dm + year)
  {
    var d := dm + year;
    assert d[..|d| - 4] == dm;
    assert d[|d| - 4..] == year;
  }

  /** A four-digit year adds no lower-case "to" to what it is appended to. */
  lemma NoLowerToYear(d: string, year: string)
    requires NoLowerTo(d) && |year| == 4 && AllDigits(year)
    ensures NoLowerTo(d + year)
  {
    var x := d + year;
    forall k | 0 <= k < |x| - 1 ensures !(x[k] == 't' && x[k + 1] == 'o') {
      if k + 1 < |d| {
        assert x[k] == d[k] && x[k + 1] == d[k + 1];
      } else {
        assert x[k + 1] == year[k + 1 - |d|];
      }
    }
  }

  /** A piece of a cut `s[p..e]` with something appended is the matching piece of `s`. */
  lemma CutPiece(s: string, p: nat, e: nat, year: string, a: nat, b: nat)
    requires p <= e <= |s| && a <= b <= e - p
    ensures (s[p..e] + year)[a..b] == s[p + a..p + b]
  {
    var x := s[p..e] + year;
    assert forall k :: a <= k < b ==> x[k] == s[p + k];
  }

  /** A whitespace run of `s` copied to `x` at `k`, together with the character ending it, measures the same there. */
  lemma SpaceRunMoved(s: string, x: string, i: nat, k: nat)
    requires i <= |s| && i + SpaceRun(s, i) < |s|
    requires k + SpaceRun(s, i) < |x| && x[k..k + SpaceRun(s, i) + 1] == s[i..i + SpaceRun(s, i) + 1]
    ensures SpaceRun(x, k) == SpaceRun(s, i)
  {
    var n := SpaceRun(s, i);
    SpaceRunSpaces(s, i);
    forall j | k <= j < k + n ensures IsSpace(x[j]) {
      assert x[j] == x[k..k + n + 1][j - k] == s[i..i + n + 1][j - k];
      assert s[i..i + n + 1][j - k] == s[i..i + n][j - k];
    }
    assert x[k + n] == x[k..k + n + 1][n] == s[i + n];
    SpaceRunExact(x, k, k + n);
  }

  /** A whitespace run that ends inside the cut `s[p..e]` measures the same in the cut extended by `year`. */
  lemma GapMoved(s: string, x: string, p: nat, e: nat, year: string, i: nat)
    requires p <= i <= e <= |s| && i + SpaceRun(s, i) < e && x == s[p..e] + year
    ensures SpaceRun(x, i - p) == SpaceRun(s, i)
  {
    var n := SpaceRun(s, i);
    CutPiece(s, p, e, year, i - p, i - p + n + 1);
    SpaceRunMoved(s, x, i, i - p);
  }

  /** The first date of a partial match keeps its place once cut out and extended. */
  lemma PartialFirst(s: string, h: Hit, year: string, x: string)
    requires HitIn(h, s, h.start) && IsDate(s[h.start..h.first]) && x == s[h.start..h.end] + year
    ensures DateAt(x, 0) == Some(h.first - h.start)
  {
    CutPiece(s, h.start, h.end, year, 0, h.first - h.start);
    DateAtPiece(x, 0, s[h.start..h.first]);
  }

  /** The gap of a partial match keeps its layout once cut out and extended. */
  lemma PartialGap(s: string, h: Hit, t: nat, year: string, x: string)
    requires HitIn(h, s, h.start) && h.first < t && t + 2 < h.second < h.end && ToAt(s, t)
    requires t == h.first + SpaceRun(s, h.first) && h.second == t + 2 + SpaceRun(s, t + 2)
    requires x == s[h.start..h.end] + year
    ensures t - h.start == (h.first - h.start) + SpaceRun(x, h.first - h.start)
    ensures ToAt(x, t - h.start)
    ensures h.second - h.start == (t - h.start) + 2 + SpaceRun(x, (t - h.start) + 2)
  {
    var p := h.start;
    GapMoved(s, x, p, h.end, year, h.first);
    ToMoved(s, x, p, h.end, year, t);
    GapMoved(s, x, p, h.end, year, t + 2);
  }

  /** A "to" inside the cut `s[p..e]` is found at its place in the cut extended by `year`. */
  lemma ToMoved(s: string, x: string, p: nat, e: nat, year: string, t: nat)
    requires p <= t && t + 2 <= e <= |s| && ToAt(s, t) && x == s[p..e] + year
    ensures ToAt(x, t - p)
  {
    CutPiece(s, p, e, year, t - p, t - p + 2);
    assert x[t - p] == x[t - p..t - p + 2][0] == s[t];
    assert x[t - p + 1] == x[t - p..t - p + 2][1] == s[t + 1];
  }

  /** The day-month prefix of a partial match, cut out and followed by the year, is a date that ends the text. */
  lemma PartialTail(s: string, h: Hit, year: string)
    requires HitIn(h, s, h.start) && h.second < h.end && IsDayMonth(s[h.second..h.end])
    requires |year| == 4 && AllDigits(year)
    ensures var x := s[h.start..h.end] + year;
            DateAt(x, h.second - h.start) == Some(|x|) && x[h.second - h.start..] == s[h.second..h.end] + year
  {
    var p := h.start;
    var x := s[p..h.end] + year;
    var d := s[h.second..h.end] + year;
    DayMonthYear(s[h.second..h.end], year);
    assert x[h.second - p..] == d;
    assert x[h.second - p..h.second - p + |d|] == d;
    DateAtPiece(x, h.second - p, d);
  }

  /**
   * A partial range match "D1 to D-Mon-" with a four-digit year appended is cleaned up into
   * "D1 to D-Mon-YYYY", whatever case and whitespace its "to" was written with.
   */
  lemma CleanupPartialYear(s: string, h: Hit, year: string)
    requires RangeAt(s, h.start, false) == Some(h) && PlainDates(s, h)
    requires |year| == 4 && AllDigits(year)
    ensures Cleanup(HitText(s, h) + year) == Rebuilt(s, h) + year
  {
    var x := HitText(s, h) + year;
    var f, t, s2 := ExtendedYearLayout(s, h, year, x);
    CleanupYearLayout(x, f, t, s2, s[h.start..h.first], s[h.second..h.end], year);
  }

  /** The layout of a partial match cut out and extended by a year, with its two dates. */
  lemma ExtendedYearLayout(s: string, h: Hit, year: string, x: string) returns (f: nat, t: nat, s2: nat)
    requires RangeAt(s, h.start, false) == Some(h)
    requires |year| == 4 && AllDigits(year) && x == s[h.start..h.end] + year
    ensures Layout(x, 0, f, t, s2, |x|) && x[..f] == s[h.start..h.first] && x[s2..] == s[h.second..h.end] + year
  {
    var t0 := ExtendedLayout(s, h, year, x);
    f, t, s2 := h.first - h.start, t0 - h.start, h.second - h.start;
    assert x[..f] == s[h.start..h.first] && x[s2..] == s[h.second..h.end] + year by {
      ExtendedDates(s, h, year, x);
    }
  }

  /** Cleaning a text laid out as a range whose second date ends in `year`. */
  lemma CleanupYearLayout(x: string, f: nat, t: nat, s2: nat, d1: string, d2: string, year: string)
    requires Layout(x, 0, f, t, s2, |x|) && x[..f] == d1 && x[s2..] == d2 + year
    requires NoLowerTo(d1) && NoLowerTo(d2) && |year| == 4 && AllDigits(year)
    ensures Cleanup(x) == d1 + " to " + d2 + year
  {
    NoLowerToYear(d2, year);
    assert d1 + " to " + (d2 + year) == d1 + " to " + d2 + year;
    CleanupLayout(x, f, t, s2, |x|, d1, d2 + year);
  }

  /** The dates of the extended partial match: the first date, and the day-month prefix with the year. */
  lemma ExtendedDates(s: string, h: Hit, year: string, x: string)
    requires HitIn(h, s, h.start) && h.first <= h.second && x == s[h.start..h.end] + year
    ensures x[..h.first - h.start] == s[h.start..h.first]
    ensures x[h.second - h.start..] == s[h.second..h.end] + year
  {
    CutPiece(s, h.start, h.end, year, 0, h.first - h.start);
    assert x[h.second - h.start..] == s[h.start..h.end][h.second - h.start..] + year;
  }

  /** A partial range match, cut out and extended by a year, is laid out as a full range filling the text. */
  lemma ExtendedLayout(s: string, h: Hit, year: string, x: string) returns (t: nat)
    requires RangeAt(s, h.start, false) == Some(h)
    requires |year| == 4 && AllDigits(year) && x == s[h.start..h.end] + year
    ensures h.start <= t && Layout(x, 0, h.first - h.start, t - h.start, h.second - h.start, |x|)
  {
    t := PartialLayout(s, h.start);
    PartialFirst(s, h, year, x);
    PartialGap(s, h, t, year, x);
    PartialTail(s, h, year);
  }

  // ---------------------------------------------------------------- the results

  /**
   * A value ending in "-" on the first label line, with no full range in it, is completed by
   * the year that starts the next non-blank line, when that line is within lines i+1 .. i+4.
   * The result is that value with the year appended, cleaned up; when the value is exactly
   * "D1 to D-Mon-" with plain dates, it is "D1 to D-Mon-YYYY".
   */
  lemma SplitYearCompletes(text: string, i: nat)
    requires FirstLabel(Lines(text), i) && YearWithin(Lines(text), i)
    requires FindShape(RangeShape, ValueOf(Lines(text), i)).None? && EndsWith(ValueOf(Lines(text), i), "-")
    ensures PolicyPeriodOf(text) == Some(Cleanup(ValueOf(Lines(text), i) + LeadYear(Lines(text), i)))
    ensures var cv := ValueOf(Lines(text), i); var h := RangeAt(cv, 0, false);
            IsIncomplete(cv) && PlainDates(cv, h.value) ==>
              PolicyPeriodOf(text) == Some(Rebuilt(cv, h.value) + LeadYear(Lines(text), i))
  {
    var lines := Lines(text);
    var cv := ValueOf(lines, i);
    var year := LeadYear(lines, i);
    assert PolicyPeriodOf(text) == Some(Cleanup(cv + year)) by {
      SplitYearPass(lines, i);
      FoundIsCleaned(text, cv + year);
    }
    var h := RangeAt(cv, 0, false);
    if IsIncomplete(cv) && PlainDates(cv, h.value) {
      IncompleteWithYear(cv, year);
    }
  }

  /** A stripped incomplete value is its partial match, all of it. */
  /** An incomplete value "D1 to D-Mon-" with plain dates, extended by a year, cleans up to "D1 to D-Mon-YYYY". */
  lemma IncompleteWithYear(cv: string, year: string)
    requires IsStripped(cv) && IsIncomplete(cv) && PlainDates(cv, RangeAt(cv, 0, false).value)
    requires |year| == 4 && AllDigits(year)
    ensures Cleanup(cv + year) == Rebuilt(cv, RangeAt(cv, 0, false).value) + year
  {
    var h := RangeAt(cv, 0, false).value;
    IncompleteFills(cv);
    assert HitText(cv, h) == cv;
    CleanupPartialYear(cv, h, year);
  }

  lemma IncompleteFills(cv: string)
    requires IsStripped(cv) && IsIncomplete(cv)
    ensures RangeAt(cv, 0, false).value.end == |cv|
  {
    var h := RangeAt(cv, 0, false).value;
    assert IsDayMonth(cv[h.second..h.end]);
    assert !IsSpace(cv[|cv| - 1]) && IsSpace('\n');
  }

  /**
   * An empty label value on the first label line, whose next non-blank line holds a partial
   * range and no full one, and whose line after that starts with a year: the result is the
   * partial range with the year appended, cleaned up; with plain dates "D1 to D-Mon-YYYY".
   */
  lemma EmptySplitYearCompletes(text: string, i: nat)
    requires FirstLabel(Lines(text), i)
    requires ValueOf(Lines(text), i) == "" || ValueOf(Lines(text), i) == ":"
    requires var lines := Lines(text); var m := NextNonBlank(lines, i + 1);
             m < |lines| && FindShape(RangeShape, Normalize(lines[m])).None?
             && FindShape(PartialShape, Normalize(lines[m])).Some? && YearAfter(lines, m).Some?
    ensures var lines := Lines(text); var m := NextNonBlank(lines, i + 1);
            var next := Normalize(lines[m]); var h := FindShape(PartialShape, next).value;
            PolicyPeriodOf(text) == Some(Cleanup(HitText(next, h) + YearAfter(lines, m).value))
            && (PlainDates(next, h) ==> PolicyPeriodOf(text) == Some(Rebuilt(next, h) + YearAfter(lines, m).value))
  {
    var lines := Lines(text);
    var m := NextNonBlank(lines, i + 1);
    var next := Normalize(lines[m]);
    var h := FindShape(PartialShape, next).value;
    var year := YearAfter(lines, m).value;
    EmptyValueCases(lines, i, None);
    EmptyValueResolved(text, i);
    if PlainDates(next, h) {
      assert RangeAt(next, h.start, false) == Some(h);
      CleanupPartialYear(next, h, year);
    }
  }
}
