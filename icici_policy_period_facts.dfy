/**
 * What `extract_policy_period` promises (icici.py:111-262): a labelled full range wins and
 * comes out as "D1 to D2", an empty label value is resolved from the next non-blank line,
 * the look-ahead for an incomplete value sees only the next four lines, a digit-bearing
 * value is a fallback that does not stop the search, and without a label the first
 * unlabelled range is used.
 */
module PolicyPeriodFacts {
  import opened Common
  import opened Text
  import opened IciciText
  import opened PolicyPeriod

  // ---------------------------------------------------------------- the final reformat

  lemma DateShapeFacts(d: string)
    requires IsDate(d)
    ensures |d| == 10 || |d| == 11
    ensures NoSpace(d) && IsDigit(d[0]) && IsDigit(d[|d| - 1])
  {
    var m := d[..|d| - 4];
    forall k | 0 <= k < |d| ensures !IsSpace(d[k]) {
      if k < |d| - 4 { assert d[k] == m[k]; } else { assert d[k] == d[|d| - 4..][k - (|d| - 4)]; }
    }
    DateEnds(d);
  }

  /** A date written at `p` is matched there by the date shape, whatever follows it. */
  lemma DateAtPiece(s: string, p: nat, d: string)
    requires IsDate(d) && p + |d| <= |s| && s[p..p + |d|] == d
    ensures DateAt(s, p) == Some(p + |d|)
  {
    DateShapeFacts(d);
    var m := d[..|d| - 4];
    if |d| == 11 {
      assert s[p..p + 7] == m;
      assert s[p + 7..p + 11] == d[7..];
    } else {
      assert s[p..p + 7][1] == d[1];
      assert s[p..p + 6] == m;
      assert s[p + 6..p + 10] == d[6..];
    }
  }

  lemma SpaceRunExact(s: string, k: nat, e: nat)
    requires k <= e <= |s|
    requires forall j :: k <= j < e ==> IsSpace(s[j])
    requires e == |s| || !IsSpace(s[e])
    ensures SpaceRun(s, k) == e - k
    decreases e - k
  {
    if k < e {
      SpaceRunExact(s, k + 1, e);
    }
  }

  /** `SpaceRunExact` for a run given as a slice. */
  lemma SpaceRunSlice(s: string, k: nat, e: nat)
    requires k <= e <= |s| && AllSpace(s[k..e])
    requires e == |s| || !IsSpace(s[e])
    ensures SpaceRun(s, k) == e - k
  {
    forall j | k <= j < e ensures IsSpace(s[j]) { assert s[j] == s[k..e][j - k]; }
    SpaceRunExact(s, k, e);
  }

  /** No lower-case "to" inside `d`, so `\s*to\s*` has nothing to replace there (no month abbreviation has one). */
  predicate NoLowerTo(d: string)
  {
    forall k :: 0 <= k < |d| - 1 ==> !(d[k] == 't' && d[k + 1] == 'o')
  }

  lemma SubToNone(s: string, i: nat)
    requires i < |s| && ToMatch(s, i).None?
    ensures SubTo(s, i) == [s[i]] + SubTo(s, i + 1)
  {
  }

  lemma SubToSome(s: string, i: nat)
    requires i < |s| && ToMatch(s, i).Some?
    ensures SubTo(s, i) == " to " + SubTo(s, ToMatch(s, i).value)
  {
  }

  /** Where `\s*to\s*` matches nowhere in `[i..j)`, the substitution copies that stretch. */
  lemma {:induction false} SubToCopy(s: string, i: nat, j: nat)
    requires i <= j <= |s|
    requires forall k :: i <= k < j ==> ToMatch(s, k).None?
    ensures SubTo(s, i) == s[i..j] + SubTo(s, j)
    decreases j - i
  {
    if i < j {
      SubToNone(s, i);
      SubToCopy(s, i + 1, j);
      calc {
        SubTo(s, i);
        [s[i]] + SubTo(s, i + 1);
        [s[i]] + (s[i + 1..j] + SubTo(s, j));
        { assert s[i..j] == [s[i]] + s[i + 1..j]; }
        s[i..j] + SubTo(s, j);
      }
    }
  }

  /** Inside a date without a lower-case "to", `\s*to\s*` does not match. */
  lemma DateNoTo(s: string, p: nat, e: nat, k: nat)
    requires p <= k < e <= |s| && IsDate(s[p..e]) && NoLowerTo(s[p..e])
    ensures ToMatch(s, k).None?
  {
    var d := s[p..e];
    DateShapeFacts(d);
    assert s[k] == d[k - p];
    if k + 1 < e { assert s[k + 1] == d[k - p + 1]; }
  }

  /** The gap of a range: whitespace, a "to" in some case at `t`, whitespace, and the second date from `s2`. */
  predicate Gap(x: string, f: nat, t: nat, s2: nat)
  {
    f < t && t + 2 < s2 < |x| && ToAt(x, t)
    && AllSpace(x[f..t]) && AllSpace(x[t + 2..s2]) && IsDigit(x[s2])
  }

  /** Around a "to" not written in lower case, `\s*to\s*` matches nowhere in the gap. */
  lemma GapNoTo(x: string, f: nat, t: nat, s2: nat, k: nat)
    requires Gap(x, f, t, s2) && f <= k < s2
    requires !(x[t] == 't' && x[t + 1] == 'o')
    ensures ToMatch(x, k).None?
  {
    assert !IsSpace(x[s2]);
    assert !IsSpace(x[t]) && !IsSpace(x[t + 1]) && x[t + 1] != 't';
    if k < t {
      forall j | k <= j < t ensures IsSpace(x[j]) { assert x[j] == x[f..t][j - f]; }
      SpaceRunExact(x, k, t);
    } else if k >= t + 2 {
      forall j | k <= j < s2 ensures IsSpace(x[j]) { assert x[j] == x[t + 2..s2][j - (t + 2)]; }
      SpaceRunExact(x, k, s2);
    }
  }

  /** Around a lower-case "to", `\s*to\s*` matches the whole gap. */
  lemma GapIsTo(x: string, f: nat, t: nat, s2: nat)
    requires Gap(x, f, t, s2) && x[t] == 't' && x[t + 1] == 'o'
    ensures ToMatch(x, f) == Some(s2)
  {
    assert !IsSpace(x[s2]) && !IsSpace(x[t]);
    SpaceRunSlice(x, f, t);
    SpaceRunSlice(x, t + 2, s2);
  }

  /** The pieces of "D1 to D2" as the range shape reads them. */
  lemma RebuiltPieces(d1: string, d2: string)
    requires IsDate(d1) && IsDate(d2)
    ensures var y := d1 + " to " + d2; var f := |d1|; Layout(y, 0, f, f + 1, f + 4, |y|)
  {
    RebuiltDates(d1, d2);
    RebuiltGap(d1, d2);
  }

  lemma RebuiltDates(d1: string, d2: string)
    requires IsDate(d1) && IsDate(d2)
    ensures var y := d1 + " to " + d2; DateAt(y, 0) == Some(|d1|) && DateAt(y, |d1| + 4) == Some(|y|)
  {
    var y := d1 + " to " + d2;
    assert y[0..|d1|] == d1;
    assert y[|d1| + 4..|y|] == d2;
    DateAtPiece(y, 0, d1);
    DateAtPiece(y, |d1| + 4, d2);
  }

  lemma RebuiltGap(d1: string, d2: string)
    requires IsDate(d2)
    ensures var y := d1 + " to " + d2; var f := |d1|;
            SpaceRun(y, f) == 1 && ToAt(y, f + 1) && SpaceRun(y, f + 3) == 1
  {
    var y := d1 + " to " + d2;
    var f := |d1|;
    DateEnds(d2);
    assert y[f] == ' ' && y[f + 1] == 't' && y[f + 2] == 'o' && y[f + 3] == ' ' && y[f + 4] == d2[0];
    SpaceRunExact(y, f, f + 1);
    SpaceRunExact(y, f + 3, f + 4);
  }

  /** "D1 to D2" is a range at its start. */
  lemma RebuiltIsRange(d1: string, d2: string)
    requires IsDate(d1) && IsDate(d2)
    ensures var y := d1 + " to " + d2;
            RangeAt(y, 0, true) == Some(Hit(0, |d1|, |d1| + 4, |y|))
  {
    var y := d1 + " to " + d2;
    RebuiltPieces(d1, d2);
    RangeFromPieces(y, 0, |d1|, |d1| + 1, |d1| + 4, |y|);
  }

  /** How a range match at `p` is laid out: the first date ends at `f`, the "to" sits at `t`, the second date runs from `s2` to `e`. */
  predicate Layout(s: string, p: nat, f: nat, t: nat, s2: nat, e: nat)
  {
    DateAt(s, p) == Some(f) && f < t && t <= |s| && t == f + SpaceRun(s, f) && ToAt(s, t)
    && t + 2 < s2 && s2 == t + 2 + SpaceRun(s, t + 2) && DateAt(s, s2) == Some(e)
  }

  lemma RangeAtLayout(s: string, p: nat) returns (t: nat)
    requires RangeAt(s, p, true).Some?
    ensures var h := RangeAt(s, p, true).value; Layout(s, p, h.first, t, h.second, h.end)
  {
    var e1 := DateAt(s, p).value;
    t := e1 + SpaceRun(s, e1);
  }

  /** A date at `p`, whitespace, a "to" at `t`, whitespace and a date make a range match at `p`. */
  lemma RangeFromPieces(x: string, p: nat, f: nat, t: nat, s2: nat, e: nat)
    requires Layout(x, p, f, t, s2, e)
    ensures RangeAt(x, p, true) == Some(Hit(p, f, s2, e))
  {
  }

  /** The pieces of a range that fills all of `x`: the dates, and the gap with its "to" at the result. */
  lemma RangeFillsParts(x: string, f: nat, t: nat, s2: nat)
    requires Layout(x, 0, f, t, s2, |x|)
    ensures Gap(x, f, t, s2) && IsDate(x[..f]) && IsDate(x[s2..])
    ensures IsDigit(x[0]) && IsDigit(x[|x| - 1])
  {
    SpaceRunSpaces(x, f);
    SpaceRunSpaces(x, t + 2);
    assert x[0..f] == x[..f] && x[s2..|x|] == x[s2..];
    DateEnds(x[..f]);
    DateEnds(x[s2..]);
    assert x[0] == x[..f][0];
    assert x[s2] == x[s2..][0] && x[|x| - 1] == x[s2..][|x| - 1 - s2];
  }

  /** `\s*to\s*` leaves the dates of a range alone. */
  lemma SubToDates(x: string, f: nat, s2: nat)
    requires f <= s2 <= |x| && IsDate(x[..f]) && IsDate(x[s2..])
    requires NoLowerTo(x[..f]) && NoLowerTo(x[s2..])
    ensures SubTo(x, 0) == x[..f] + SubTo(x, f)
    ensures SubTo(x, s2) == x[s2..]
  {
    assert x[0..f] == x[..f] && x[s2..|x|] == x[s2..];
    forall k | 0 <= k < f ensures ToMatch(x, k).None? { DateNoTo(x, 0, f, k); }
    forall k | s2 <= k < |x| ensures ToMatch(x, k).None? { DateNoTo(x, s2, |x|, k); }
    SubToCopy(x, 0, f);
    SubToCopy(x, s2, |x|);
  }

  /** `\s*to\s*` turns a range written with a lower-case "to" into "D1 to D2". */
  lemma SubToLower(x: string, f: nat, t: nat, s2: nat)
    requires Gap(x, f, t, s2) && x[t] == 't' && x[t + 1] == 'o'
    requires SubTo(x, 0) == x[..f] + SubTo(x, f) && SubTo(x, s2) == x[s2..]
    ensures SubTo(x, 0) == x[..f] + " to " + x[s2..]
  {
    GapIsTo(x, f, t, s2);
    SubToSome(x, f);
  }

  /** `\s*to\s*` leaves a range written with any other "to" alone. */
  lemma SubToOther(x: string, f: nat, t: nat, s2: nat)
    requires Gap(x, f, t, s2) && !(x[t] == 't' && x[t + 1] == 'o')
    requires SubTo(x, 0) == x[..f] + SubTo(x, f) && SubTo(x, s2) == x[s2..]
    ensures SubTo(x, 0) == x
  {
    GapCopied(x, f, t, s2);
    ThreeSlices(x, f, s2);
  }

  lemma ThreeSlices(x: string, f: nat, s2: nat)
    requires f <= s2 <= |x|
    ensures x[..f] + (x[f..s2] + x[s2..]) == x
  {
    assert x[..f] + x[f..s2] == x[..s2];
    assert x[..s2] + x[s2..] == x;
  }

  lemma GapCopied(x: string, f: nat, t: nat, s2: nat)
    requires Gap(x, f, t, s2) && !(x[t] == 't' && x[t + 1] == 'o')
    ensures SubTo(x, f) == x[f..s2] + SubTo(x, s2)
  {
    forall k | f <= k < s2 ensures ToMatch(x, k).None? { GapNoTo(x, f, t, s2, k); }
    SubToCopy(x, f, s2);
  }

  /** `\s*to\s*` turns a range written with a lower-case "to" into "D1 to D2", and leaves any other range alone. */
  lemma SubToRange(x: string, f: nat, t: nat, s2: nat)
    requires Gap(x, f, t, s2) && IsDate(x[..f]) && IsDate(x[s2..])
    requires NoLowerTo(x[..f]) && NoLowerTo(x[s2..])
    ensures SubTo(x, 0) == if x[t] == 't' && x[t + 1] == 'o' then x[..f] + " to " + x[s2..] else x
  {
    SubToDates(x, f, s2);
    if x[t] == 't' && x[t + 1] == 'o' {
      SubToLower(x, f, t, s2);
    } else {
      SubToOther(x, f, t, s2);
    }
  }

  /** A value that `\s*to\s*` turns into a string with a digit at both ends goes straight to the reformat. */
  lemma CleanupDigitEnds(x: string)
    requires var y := SubTo(x, 0); |y| > 0 && IsDigit(y[0]) && IsDigit(y[|y| - 1])
    ensures Cleanup(x) == Reformat(SubTo(x, 0))
  {
    var y := SubTo(x, 0);
    StripStripped(y);
    assert DropTrailingDash(y) == y;
  }

  /** The reformat of a stripped range that fills all of `y`. */
  lemma ReformatRange(y: string, f: nat, s2: nat)
    requires IsStripped(y) && RangeAt(y, 0, true) == Some(Hit(0, f, s2, |y|))
    ensures Reformat(y) == y[..f] + " to " + y[s2..]
  {
    assert y[s2..|y|] == y[s2..];
  }

  /** "D1 to D2" is left as it is by the reformat. */
  lemma ReformatRebuilt(d1: string, d2: string)
    requires IsDate(d1) && IsDate(d2)
    ensures var y := d1 + " to " + d2; IsDigit(y[0]) && IsDigit(y[|y| - 1]) && Reformat(y) == y
  {
    var y := d1 + " to " + d2;
    DateEnds(d1);
    DateEnds(d2);
    assert y[0] == d1[0] && y[|y| - 1] == d2[|d2| - 1];
    RebuiltIsRange(d1, d2);
    assert y[..|d1|] == d1 && y[|d1| + 4..] == d2;
    ReformatRange(y, |d1|, |d1| + 4);
  }

  /** The final cleanup of a range with a lower-case "to": `\s*to\s*` already gave "D1 to D2". */
  lemma CleanupLower(x: string, d1: string, d2: string)
    requires IsDate(d1) && IsDate(d2) && SubTo(x, 0) == d1 + " to " + d2
    ensures Cleanup(x) == d1 + " to " + d2
  {
    ReformatRebuilt(d1, d2);
    CleanupDigitEnds(x);
  }

  /** The final cleanup of a value that `\s*to\s*` left alone and that has a digit at both ends. */
  lemma CleanupOther(x: string, r: string)
    requires SubTo(x, 0) == x && |x| > 0 && IsDigit(x[0]) && IsDigit(x[|x| - 1]) && Reformat(x) == r
    ensures Cleanup(x) == r
  {
    CleanupDigitEnds(x);
  }

  lemma DigitEndsStripped(s: string)
    requires |s| > 0 && IsDigit(s[0]) && IsDigit(s[|s| - 1])
    ensures IsStripped(s)
  {
  }

  /** `CleanupRange` for a range given by its layout, with its dates `d1` and `d2`. */
  lemma CleanupLayout(x: string, f: nat, t: nat, s2: nat, e: nat, d1: string, d2: string)
    requires Layout(x, 0, f, t, s2, e) && e == |x|
    requires x[..f] == d1 && x[s2..] == d2 && NoLowerTo(d1) && NoLowerTo(d2)
    ensures Cleanup(x) == d1 + " to " + d2
  {
    RangeFillsParts(x, f, t, s2);
    SubToRange(x, f, t, s2);
    if x[t] == 't' && x[t + 1] == 'o' {
      CleanupLower(x, d1, d2);
    } else {
      DigitEndsStripped(x);
      RangeFromPieces(x, 0, f, t, s2, |x|);
      ReformatRange(x, f, s2);
      CleanupOther(x, d1 + " to " + d2);
    }
  }

  /**
   * The final cleanup of a range that fills all of `x` gives "D1 to D2", whichever case its
   * "to" is written in, as long as no lower-case "to" sits inside the dates.
   */
  lemma CleanupRange(x: string, f: nat, s2: nat)
    requires RangeAt(x, 0, true) == Some(Hit(0, f, s2, |x|))
    requires NoLowerTo(x[..f]) && NoLowerTo(x[s2..])
    ensures Cleanup(x) == x[..f] + " to " + x[s2..]
  {
    var t := RangeAtLayout(x, 0);
    CleanupLayout(x, f, t, s2, |x|, x[..f], x[s2..]);
  }

  /** A whitespace run that ends inside `s[p..e]` measures the same there. */
  lemma SpaceRunCut(s: string, p: nat, e: nat, i: nat, j: nat)
    requires p <= i <= e <= |s| && i + SpaceRun(s, i) < e && j == i - p
    ensures SpaceRun(s[p..e], j) == SpaceRun(s, i)
  {
    var x := s[p..e];
    var n := SpaceRun(s, i);
    SpaceRunSpaces(s, i);
    forall k | j <= k < j + n ensures IsSpace(x[k]) { assert x[k] == s[i..i + n][k - j]; }
    assert x[j + n] == s[i + n];
    SpaceRunExact(x, j, j + n);
  }

  /** A date that ends inside `s[p..e]` is matched there too. */
  lemma DateAtCut(s: string, p: nat, e: nat, i: nat, k: nat, j: nat, l: nat)
    requires p <= i <= e <= |s| && DateAt(s, i) == Some(k) && k <= e && j == i - p && l == k - p
    ensures DateAt(s[p..e], j) == Some(l)
  {
    var x := s[p..e];
    forall m | 0 <= m < k - i ensures x[j..l][m] == s[i..k][m] {
      assert x[j + m] == s[i + m];
    }
    assert x[j..l] == s[i..k];
    DateAtPiece(x, j, s[i..k]);
  }

  /** The gap of a range match, cut out of its line, measures the same in the cut. */
  lemma GapCut(s: string, p: nat, f: nat, t: nat, s2: nat, e: nat)
    requires p <= f < t < s2 < e <= |s| && t == f + SpaceRun(s, f) && ToAt(s, t)
    requires t + 2 < s2 && s2 == t + 2 + SpaceRun(s, t + 2)
    ensures var x := s[p..e];
            t - p == (f - p) + SpaceRun(x, f - p) && ToAt(x, t - p)
            && s2 - p == (t - p) + 2 + SpaceRun(x, (t - p) + 2)
  {
    SpaceRunCut(s, p, e, f, f - p);
    SpaceRunCut(s, p, e, t + 2, (t - p) + 2);
    var x := s[p..e];
    assert x[t - p] == s[t] && x[(t - p) + 1] == s[t + 1];
  }

  /** A range match, cut out of its line, is laid out the same way in the cut. */
  lemma LayoutCut(s: string, p: nat, f: nat, t: nat, s2: nat, e: nat)
    requires Layout(s, p, f, t, s2, e)
    ensures Layout(s[p..e], 0, f - p, t - p, s2 - p, e - p)
  {
    DateAtCut(s, p, e, p, f, 0, f - p);
    GapCut(s, p, f, t, s2, e);
    DateAtCut(s, p, e, s2, e, s2 - p, e - p);
  }

  /** Both dates of a range match are free of a lower-case "to". */
  predicate PlainDates(s: string, h: Hit)
    requires HitIn(h, s, h.start)
  {
    NoLowerTo(s[h.start..h.first]) && NoLowerTo(s[h.second..h.end])
  }

  /** A range match rebuilt as "D1 to D2". */
  function Rebuilt(s: string, h: Hit): string
    requires HitIn(h, s, h.start)
  {
    s[h.start..h.first] + " to " + s[h.second..h.end]
  }

  /** The final cleanup turns the text of a range match into "D1 to D2". */
  lemma CleanupHit(s: string, h: Hit)
    requires RangeAt(s, h.start, true) == Some(h) && PlainDates(s, h)
    ensures Cleanup(HitText(s, h)) == Rebuilt(s, h)
  {
    var t := RangeAtLayout(s, h.start);
    CleanupCut(s, h.start, h.first, t, h.second, h.end);
  }

  /** `CleanupLayout` for a range laid out inside a longer line, once cut out. */
  lemma CleanupCut(s: string, p: nat, f: nat, t: nat, s2: nat, e: nat)
    requires Layout(s, p, f, t, s2, e) && NoLowerTo(s[p..f]) && NoLowerTo(s[s2..e])
    ensures Cleanup(s[p..e]) == s[p..f] + " to " + s[s2..e]
  {
    LayoutCut(s, p, f, t, s2, e);
    CleanupCutLayout(s, p, f, t, s2, e);
  }

  lemma CleanupCutLayout(s: string, p: nat, f: nat, t: nat, s2: nat, e: nat)
    requires p <= f <= t <= s2 <= e <= |s| && Layout(s[p..e], 0, f - p, t - p, s2 - p, e - p)
    requires NoLowerTo(s[p..f]) && NoLowerTo(s[s2..e])
    ensures Cleanup(s[p..e]) == s[p..f] + " to " + s[s2..e]
  {
    CutDates(s, p, f, s2, e);
    CleanupLayout(s[p..e], f - p, t - p, s2 - p, e - p, s[p..f], s[s2..e]);
  }

  /** The dates of a range match are the dates of the cut. */
  lemma CutDates(s: string, p: nat, f: nat, s2: nat, e: nat)
    requires p <= f <= s2 <= e <= |s|
    ensures |s[p..e]| == e - p
    ensures s[p..e][..f - p] == s[p..f] && s[p..e][s2 - p..] == s[s2..e]
  {
  }

  // ---------------------------------------------------------------- the first pass

  /** Lines without the label leave the first pass's state alone. */
  lemma {:induction false} FirstPassSkip(lines: seq<string>, i: nat, j: nat, ppv: Option<string>)
    requires i <= j <= |lines|
    requires forall k :: i <= k < j ==> !IsLabelLine(lines[k])
    ensures FirstPass(lines, i, ppv) == FirstPass(lines, j, ppv)
    decreases j - i
  {
    if i == j {
    } else {
      FirstPassOther(lines, i, ppv);
      FirstPassSkip(lines, i + 1, j, ppv);
      assert FirstPass(lines, i + 1, ppv) == FirstPass(lines, j, ppv);
    }
  }

  lemma FirstPassOther(lines: seq<string>, i: nat, ppv: Option<string>)
    requires i < |lines| && !IsLabelLine(lines[i])
    ensures FirstPass(lines, i, ppv) == FirstPass(lines, i + 1, ppv)
  {
  }

  lemma FirstPassLabel(lines: seq<string>, i: nat, ppv: Option<string>)
    requires i < |lines| && IsLabelLine(lines[i])
    ensures FirstPass(lines, i, ppv) == (var st := LabelStep(lines, i, ppv);
                                         if st.stop then st.value else FirstPass(lines, i + 1, st.value))
  {
  }

  lemma FirstPassEnd(lines: seq<string>, ppv: Option<string>)
    ensures FirstPass(lines, |lines|, ppv) == ppv
  {
  }

  /** `i` is the first line carrying the label. */
  predicate FirstLabel(lines: seq<string>, i: nat)
  {
    i < |lines| && IsLabelLine(lines[i]) && forall k :: 0 <= k < i ==> !IsLabelLine(lines[k])
  }

  /** A found value is always cleaned up. */
  lemma FoundIsCleaned(text: string, v: string)
    requires FirstPass(Lines(text), 0, None) == Some(v) && v != ""
    ensures PolicyPeriodOf(text) == Some(Cleanup(v))
  {
  }

  /** Without a labelled value the result is the cleaned first unlabelled range, if any. */
  lemma NothingLabelled(text: string)
    requires FirstPass(Lines(text), 0, None) == None
    ensures var r := SecondPass(Lines(text), 0);
            PolicyPeriodOf(text) == if r.Some? then Some(Cleanup(r.value)) else None
  {
    SecondPassFound(Lines(text), 0);
  }

  /** A range needs at least a date, a space, "to", a space and a date. */
  lemma RangeLength(cv: string)
    ensures FindShape(RangeShape, cv).Some? ==> |cv| >= 3
    ensures RangeAt(cv, 0, false).Some? ==> |cv| >= 3
  {
  }

  lemma ValueStepShort(lines: seq<string>, i: nat, cv: string, ppv: Option<string>)
    requires i < |lines| && (cv == "" || cv == ":")
    ensures ValueStep(lines, i, cv, ppv) == Step(ppv, false)
  {
    RangeLength(cv);
    assert !HasDigit(cv) by {
      forall k | 0 <= k < |cv| ensures !IsDigit(cv[k]) { assert cv[k] == ':'; }
    }
  }

  lemma ValueStepRange(lines: seq<string>, i: nat, cv: string, ppv: Option<string>)
    requires i < |lines| && FindShape(RangeShape, cv).Some?
    ensures ValueStep(lines, i, cv, ppv) == Step(Some(HitText(cv, FindShape(RangeShape, cv).value)), true)
  {
  }

  lemma LabelStepEmpty(lines: seq<string>, i: nat, ppv: Option<string>)
    requires i < |lines| && IsLabelLine(lines[i])
    requires ValueOf(lines, i) == "" || ValueOf(lines, i) == ":"
    ensures LabelStep(lines, i, ppv) == (var e := EmptyValueStep(lines, i, ppv);
                                         if e.stop then e else Step(e.value, false))
  {
    ValueStepShort(lines, i, ValueOf(lines, i), EmptyValueStep(lines, i, ppv).value);
  }

  lemma LabelStepValue(lines: seq<string>, i: nat, ppv: Option<string>)
    requires i < |lines| && IsLabelLine(lines[i])
    requires ValueOf(lines, i) != "" && ValueOf(lines, i) != ":"
    ensures LabelStep(lines, i, ppv) == ValueStep(lines, i, ValueOf(lines, i), ppv)
  {
  }

  lemma EmptyValueStepAt(lines: seq<string>, i: nat, ppv: Option<string>)
    requires i < |lines| && NextNonBlank(lines, i + 1) < |lines|
    ensures var m := NextNonBlank(lines, i + 1);
            EmptyValueStep(lines, i, ppv) == NextLineStep(Normalize(lines[m]), YearAfter(lines, m), ppv)
  {
  }

  lemma YearAfterAt(lines: seq<string>, m: nat)
    requires m < |lines|
    ensures var y := NextNonBlank(lines, m + 1);
            YearAfter(lines, m) == if y < |lines| && StartsWithYear(Normalize(lines[y]))
                                   then Some(Normalize(lines[y])[..4]) else None
  {
  }

  /** The four outcomes of the line after an empty label value. */
  lemma NextLineCases(next: string, year: Option<string>, ppv: Option<string>)
    ensures var r := NextLineStep(next, year, ppv);
            var range := FindShape(RangeShape, next);
            var partial := FindShape(PartialShape, next);
            if range.Some? then r == Step(Some(HitText(next, range.value)), true)
            else if partial.Some? && year.Some? then r == Step(Some(HitText(next, partial.value) + year.value), true)
            else if !Truthy(ppv) && HasDigit(next) then r == Step(Some(next), true)
            else r == Step(ppv, false)
  {
  }

  /** A full range on the first label line is the policy period, cleaned up. */
  lemma LabelRangeWins(text: string, i: nat)
    requires FirstLabel(Lines(text), i)
    requires FindShape(RangeShape, ValueOf(Lines(text), i)).Some?
    ensures var cv := ValueOf(Lines(text), i);
            PolicyPeriodOf(text) == Some(Cleanup(HitText(cv, FindShape(RangeShape, cv).value)))
    ensures var cv := ValueOf(Lines(text), i); var h := FindShape(RangeShape, cv).value;
            PlainDates(cv, h) ==> PolicyPeriodOf(text) == Some(Rebuilt(cv, h))
  {
    var lines := Lines(text);
    var cv := ValueOf(lines, i);
    RangeLength(cv);
    FirstPassSkip(lines, 0, i, None);
    FirstPassLabel(lines, i, None);
    LabelStepValue(lines, i, None);
    ValueStepRange(lines, i, cv, None);
    var h := FindShape(RangeShape, cv).value;
    FoundIsCleaned(text, HitText(cv, h));
    if PlainDates(cv, h) {
      CleanupHit(cv, h);
    }
  }

  /**
   * How an empty label value is resolved from the next non-blank line: a full range there,
   * else a partial range completed with the year after it (`YearAfter`), else (when
   * nothing was kept yet) the whole line if it has a digit; otherwise the kept value stays.
   */
  lemma EmptyValueCases(lines: seq<string>, i: nat, ppv: Option<string>)
    requires i < |lines| && NextNonBlank(lines, i + 1) < |lines|
    ensures var m := NextNonBlank(lines, i + 1);
            var next := Normalize(lines[m]);
            var range := FindShape(RangeShape, next);
            var partial := FindShape(PartialShape, next);
            var year := YearAfter(lines, m);
            var r := EmptyValueStep(lines, i, ppv);
            if range.Some? then r == Step(Some(HitText(next, range.value)), true)
            else if partial.Some? && year.Some? then
              r == Step(Some(HitText(next, partial.value) + year.value), true)
            else if !Truthy(ppv) && HasDigit(next) then r == Step(Some(next), true)
            else r == Step(ppv, false)
  {
    var m := NextNonBlank(lines, i + 1);
    EmptyValueStepAt(lines, i, ppv);
    NextLineCases(Normalize(lines[m]), YearAfter(lines, m), ppv);
  }

  /**
   * On the first label line an empty value that resolves decides the policy period (cleaned
   * up); one that does not leaves the search to the lines after the label.
   */
  lemma EmptyValueResolved(text: string, i: nat)
    requires FirstLabel(Lines(text), i)
    requires ValueOf(Lines(text), i) == "" || ValueOf(Lines(text), i) == ":"
    ensures var e := EmptyValueStep(Lines(text), i, None);
            if e.stop then PolicyPeriodOf(text) == Some(Cleanup(e.value.value))
            else FirstPass(Lines(text), 0, None) == FirstPass(Lines(text), i + 1, None)
  {
    var lines := Lines(text);
    EmptyLabelPass(lines, i);
    var e := EmptyValueStep(lines, i, None);
    if e.stop {
      FoundIsCleaned(text, e.value.value);
    }
  }

  /** The first pass stops at an empty first label value exactly when its resolution does. */
  lemma EmptyLabelPass(lines: seq<string>, i: nat)
    requires FirstLabel(lines, i)
    requires ValueOf(lines, i) == "" || ValueOf(lines, i) == ":"
    ensures var e := EmptyValueStep(lines, i, None);
            FirstPass(lines, 0, None) == if e.stop then e.value else FirstPass(lines, i + 1, None)
  {
    FirstPassSkip(lines, 0, i, None);
    FirstPassLabel(lines, i, None);
    LabelStepEmpty(lines, i, None);
  }

  /** A value that is kept as a fallback does not stop the search: the next lines are still examined. */
  lemma FallbackContinues(lines: seq<string>, i: nat, ppv: Option<string>)
    requires i < |lines| && IsLabelLine(lines[i])
    requires var cv := ValueOf(lines, i);
             cv != "" && cv != ":" && FindShape(RangeShape, cv).None? && !IsIncomplete(cv)
             && !EndsWith(cv, "-") && HasDigit(cv)
    ensures FirstPass(lines, i, ppv) == FirstPass(lines, i + 1, Some(ValueOf(lines, i)))
  {
    FirstPassLabel(lines, i, ppv);
    LabelStepValue(lines, i, ppv);
  }

  /** The first pass over the lines: a later full range replaces an earlier fallback value. */
  lemma LaterRangePass(lines: seq<string>, i: nat, j: nat)
    requires FirstLabel(lines, i) && i < j < |lines|
    requires var cv := ValueOf(lines, i);
             cv != "" && cv != ":" && FindShape(RangeShape, cv).None? && !IsIncomplete(cv)
             && !EndsWith(cv, "-") && HasDigit(cv)
    requires forall k :: i < k < j ==> !IsLabelLine(lines[k])
    requires IsLabelLine(lines[j]) && FindShape(RangeShape, ValueOf(lines, j)).Some?
    ensures var cv := ValueOf(lines, j);
            FirstPass(lines, 0, None) == Some(HitText(cv, FindShape(RangeShape, cv).value))
  {
    FirstPassSkip(lines, 0, i, None);
    FallbackContinues(lines, i, None);
    var fb := Some(ValueOf(lines, i));
    FirstPassSkip(lines, i + 1, j, fb);
    var cv := ValueOf(lines, j);
    FirstPassLabel(lines, j, fb);
    LabelStepValue(lines, j, fb);
    ValueStepRange(lines, j, cv, fb);
  }

  /** A later full range replaces an earlier fallback value. */
  lemma LaterRangeReplacesFallback(text: string, i: nat, j: nat)
    requires FirstLabel(Lines(text), i) && i < j < |Lines(text)|
    requires var cv := ValueOf(Lines(text), i);
             cv != "" && cv != ":" && FindShape(RangeShape, cv).None? && !IsIncomplete(cv)
             && !EndsWith(cv, "-") && HasDigit(cv)
    requires forall k :: i < k < j ==> !IsLabelLine(Lines(text)[k])
    requires IsLabelLine(Lines(text)[j]) && FindShape(RangeShape, ValueOf(Lines(text), j)).Some?
    ensures var cv := ValueOf(Lines(text), j);
            PolicyPeriodOf(text) == Some(Cleanup(HitText(cv, FindShape(RangeShape, cv).value)))
    ensures var cv := ValueOf(Lines(text), j); var h := FindShape(RangeShape, cv).value;
            PlainDates(cv, h) ==> PolicyPeriodOf(text) == Some(Rebuilt(cv, h))
  {
    LaterRangePass(Lines(text), i, j);
    var cv := ValueOf(Lines(text), j);
    RangeLength(cv);
    var h := FindShape(RangeShape, cv).value;
    FoundIsCleaned(text, HitText(cv, h));
    if PlainDates(cv, h) {
      CleanupHit(cv, h);
    }
  }

  /** An incomplete value ending in "-" is completed by a year from lines i+1 .. i+4 only. */
  lemma {:induction false} DashScanLocal(l1: seq<string>, l2: seq<string>, cv: string, from: nat, stop: nat)
    requires from <= stop <= |l1| && stop <= |l2|
    requires l1[from..stop] == l2[from..stop]
    ensures DashScan(l1, cv, from, stop) == DashScan(l2, cv, from, stop)
    decreases stop - from
  {
    if from == stop {
      DashScanSameEnd(l1, l2, cv, from, stop);
    } else {
      assert l1[from] == l1[from..stop][0];
      assert l1[from + 1..stop] == l1[from..stop][1..];
      assert l2[from + 1..stop] == l2[from..stop][1..];
      DashScanLocal(l1, l2, cv, from + 1, stop);
      DashScanSameStep(l1, l2, cv, from, stop);
    }
  }

  lemma DashScanSameEnd(l1: seq<string>, l2: seq<string>, cv: string, from: nat, stop: nat)
    requires stop <= |l1| && stop <= |l2| && from >= stop
    ensures DashScan(l1, cv, from, stop) == DashScan(l2, cv, from, stop)
  {
  }

  lemma DashScanSameStep(l1: seq<string>, l2: seq<string>, cv: string, from: nat, stop: nat)
    requires stop <= |l1| && stop <= |l2| && from < stop
    requires l1[from] == l2[from]
    requires DashScan(l1, cv, from + 1, stop) == DashScan(l2, cv, from + 1, stop)
    ensures DashScan(l1, cv, from, stop) == DashScan(l2, cv, from, stop)
  {
  }

  /** Two letters that agree on lines i+1 .. i+4 complete an incomplete value on line i alike. */
  lemma LookAheadWindow(l1: seq<string>, l2: seq<string>, i: nat, cv: string)
    requires i < |l1| && i < |l2| && Min(i + 5, |l1|) == Min(i + 5, |l2|)
    requires forall j :: i < j < Min(i + 5, |l1|) ==> l1[j] == l2[j]
    ensures DashScan(l1, cv, i + 1, Min(i + 5, |l1|)) == DashScan(l2, cv, i + 1, Min(i + 5, |l2|))
  {
    var stop := Min(i + 5, |l1|);
    assert l1[i + 1..stop] == l2[i + 1..stop];
    DashScanLocal(l1, l2, cv, i + 1, stop);
  }

  /** A "D1 to D-Mon-" value is incomplete only by ending in "-", so that test decides the branch. */
  lemma IncompleteEndsWithDash(cv: string)
    requires IsStripped(cv) && IsIncomplete(cv)
    ensures EndsWith(cv, "-")
  {
    var h := RangeAt(cv, 0, false).value;
    assert IsDayMonth(cv[h.second..h.end]);
    assert cv[h.end - 1] == cv[h.second..h.end][h.end - h.second - 1];
    assert !IsSpace(cv[|cv| - 1]) && IsSpace('\n');
    assert h.end == |cv|;
    assert cv[|cv| - 1..] == "-";
  }

  // ---------------------------------------------------------------- the second pass

  /** Line `m` is the first line with a full range. */
  predicate FirstRangeLine(lines: seq<string>, m: nat)
  {
    m < |lines| && FindShape(RangeShape, Normalize(lines[m])).Some?
    && forall k :: 0 <= k < m ==> FindShape(RangeShape, Normalize(lines[k])).None?
  }

  /** No line before the first range line stops the second pass. */
  lemma SecondPassAt(lines: seq<string>, m: nat)
    requires FirstRangeLine(lines, m)
    ensures SecondPass(lines, 0) == SecondPass(lines, m)
  {
    var j := 0;
    while j < m
      invariant j <= m
      invariant SecondPass(lines, 0) == SecondPass(lines, j)
    {
      SecondPassSkip(lines, j);
      j := j + 1;
    }
  }

  lemma SecondPassSkip(lines: seq<string>, i: nat)
    requires i < |lines| && FindShape(RangeShape, Normalize(lines[i])).None?
    ensures SecondPass(lines, i) == SecondPass(lines, i + 1)
  {
  }

  lemma SecondPassHit(lines: seq<string>, i: nat)
    requires i < |lines| && FindShape(RangeShape, Normalize(lines[i])).Some?
    ensures var line := Normalize(lines[i]);
            SecondPass(lines, i) == Some(HitText(line, FindShape(RangeShape, line).value))
  {
  }

  /** Without any label line, the first unlabelled full range is used: "D1 to D2" when its dates are plain. */
  lemma NoLabelUsesFirstRange(text: string)
    requires forall k :: 0 <= k < |Lines(text)| ==> !IsLabelLine(Lines(text)[k])
    ensures var r := SecondPass(Lines(text), 0);
            PolicyPeriodOf(text) == if r.Some? then Some(Cleanup(r.value)) else None
    ensures forall m: nat :: FirstRangeLine(Lines(text), m) ==>
              var line := Normalize(Lines(text)[m]); var h := FindShape(RangeShape, line).value;
              PlainDates(line, h) ==> PolicyPeriodOf(text) == Some(Rebuilt(line, h))
  {
    var lines := Lines(text);
    FirstPassSkip(lines, 0, |lines|, None);
    FirstPassEnd(lines, None);
    NothingLabelled(text);
    forall m: nat | FirstRangeLine(lines, m)
      ensures var line := Normalize(lines[m]); var h := FindShape(RangeShape, line).value;
              PlainDates(line, h) ==> PolicyPeriodOf(text) == Some(Rebuilt(line, h))
    {
      var line := Normalize(lines[m]);
      var h := FindShape(RangeShape, line).value;
      SecondPassAt(lines, m);
      SecondPassHit(lines, m);
      if PlainDates(line, h) {
        CleanupHit(line, h);
      }
    }
  }

  lemma {:induction false} SecondPassFound(lines: seq<string>, i: nat)
    requires i <= |lines|
    ensures SecondPass(lines, i).Some? ==> SecondPass(lines, i).value != ""
    decreases |lines| - i
  {
    if i < |lines| {
      var line := Normalize(lines[i]);
      var r := FindShape(RangeShape, line);
      if r.Some? {
        assert SecondPass(lines, i) == Some(HitText(line, r.value));
      } else {
        SecondPassFound(lines, i + 1);
        assert SecondPass(lines, i) == SecondPass(lines, i + 1);
      }
    }
  }
}
