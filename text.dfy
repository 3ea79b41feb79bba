/**
 * The Python string primitives the extractors are built from, over `string` (= seq<char>):
 * whitespace as `str.isspace()` and the regex class `\s` define it, `strip`, `split`,
 * `join`, `find`, `in`, `replace`, `startswith`, and the digit and case helpers.
 * Letters, digits and case mapping are ASCII.
 */
module Text {
  import opened Common

  // ---------------------------------------------------------------- characters

  /** Python's whitespace set (`str.isspace()`, `str.strip()`, `str.split()`, regex `\s`). */
  predicate IsSpace(c: char)
  {
    c == ' ' || ('\t' <= c <= '\r') || ('\U{1C}' <= c <= '\U{1F}') || c == '\U{85}' || c == '\U{A0}'
    || c == '\U{1680}' || ('\U{2000}' <= c <= '\U{200A}') || c == '\U{2028}' || c == '\U{2029}'
    || c == '\U{202F}' || c == '\U{205F}' || c == '\U{3000}'
  }

  predicate IsDigit(c: char) { '0' <= c <= '9' }
  predicate IsUpper(c: char) { 'A' <= c <= 'Z' }
  predicate IsLower(c: char) { 'a' <= c <= 'z' }
  predicate IsLetter(c: char) { IsUpper(c) || IsLower(c) }
  /** Regex `\w`. */
  predicate IsWordChar(c: char) { IsLetter(c) || IsDigit(c) || c == '_' }

  function ToUpper(c: char): (u: char)
    ensures !IsLower(u)
    ensures IsLetter(c) <==> IsLetter(u)
  {
    if IsLower(c) then (c as int - 32) as char else c
  }

  function ToLower(c: char): (l: char)
    ensures !IsUpper(l)
    ensures IsLetter(c) <==> IsLetter(l)
  {
    if IsUpper(c) then (c as int + 32) as char else c
  }

  /** Case folding leaves a character that is not a letter as it is. */
  lemma NonLetterFolds(c: char)
    ensures !IsLetter(c) ==> ToLower(c) == c && ToUpper(c) == c
  {
  }

  /** `str.upper()`. */
  function Upper(s: string): (r: string)
    ensures |r| == |s|
    ensures forall k :: 0 <= k < |s| ==> r[k] == ToUpper(s[k])
  {
    seq(|s|, k requires 0 <= k < |s| => ToUpper(s[k]))
  }

  /** `str.lower()`. */
  function Lower(s: string): (r: string)
    ensures |r| == |s|
    ensures forall k :: 0 <= k < |s| ==> r[k] == ToLower(s[k])
  {
    seq(|s|, k requires 0 <= k < |s| => ToLower(s[k]))
  }

  predicate AllSpace(s: string) { forall k :: 0 <= k < |s| ==> IsSpace(s[k]) }
  predicate NoSpace(s: string) { forall k :: 0 <= k < |s| ==> !IsSpace(s[k]) }
  predicate AllDigits(s: string) { forall k :: 0 <= k < |s| ==> IsDigit(s[k]) }
  /** `re.search(r"\d", s)` / `any(c.isdigit() for c in s)`. */
  predicate HasDigit(s: string) { exists k :: 0 <= k < |s| && IsDigit(s[k]) }

  // ---------------------------------------------------------------- search

  predicate StartsWith(s: string, p: string) { p <= s }
  predicate EndsWith(s: string, p: string) { |p| <= |s| && s[|s| - |p|..] == p }

  /** `sub` occurs in `s` at index `k`. */
  predicate OccursAt(s: string, sub: string, k: nat) { k + |sub| <= |s| && s[k..k + |sub|] == sub }

  /** `s.find(sub, from)`: the first occurrence at or after `from`, or -1. */
  function FindFrom(s: string, sub: string, from: nat): (r: int)
    ensures r == -1 || (from <= r && OccursAt(s, sub, r))
    ensures forall k: nat :: from <= k && (r < 0 || k < r) ==> !OccursAt(s, sub, k)
    decreases |s| - from
  {
    if from + |sub| > |s| then -1
    else if OccursAt(s, sub, from) then from
    else FindFrom(s, sub, from + 1)
  }

  function Find(s: string, sub: string): int { FindFrom(s, sub, 0) }

  /** `sub in s`. */
  predicate Contains(s: string, sub: string)
    ensures Contains(s, sub) <==> exists k: nat :: OccursAt(s, sub, k)
  {
    Find(s, sub) >= 0
  }

  /** `t` is a contiguous piece of `s`. */
  ghost predicate IsInfix(t: string, s: string) { exists a: nat :: OccursAt(s, t, a) }

  lemma InfixRefl(s: string)
    ensures IsInfix(s, s)
  {
    assert OccursAt(s, s, 0);
  }

  lemma InfixTrans(t: string, u: string, s: string)
    requires IsInfix(t, u) && IsInfix(u, s)
    ensures IsInfix(t, s)
  {
    var a: nat :| OccursAt(u, t, a);
    var b: nat :| OccursAt(s, u, b);
    forall j | 0 <= j < |t| ensures s[b + a + j] == t[j] {
      assert t[j] == u[a + j];
    }
    assert s[b + a..b + a + |t|] == t;
    assert OccursAt(s, t, b + a);
  }

  /** A piece of a string that lacks `x` lacks `x` as well. */
  lemma InfixAvoids(t: string, s: string, x: string)
    requires IsInfix(t, s) && !Contains(s, x)
    ensures !Contains(t, x)
  {
    var a: nat :| OccursAt(s, t, a);
    forall k: nat | OccursAt(t, x, k) ensures OccursAt(s, x, a + k) {
      forall j | 0 <= j < |x| ensures s[a + k + j] == x[j] {
        assert x[j] == t[k + j];
      }
      assert s[a + k..a + k + |x|] == x;
    }
  }

  lemma PrefixInfix(s: string, n: nat)
    requires n <= |s|
    ensures IsInfix(s[..n], s)
  {
    assert OccursAt(s, s[..n], 0);
  }

  // ---------------------------------------------------------------- strip

  /** `s.lstrip()`. */
  function LStrip(s: string): (r: string)
    ensures |r| <= |s|
    ensures |r| == 0 || !IsSpace(r[0])
    decreases |s|
  {
    if |s| > 0 && IsSpace(s[0]) then LStrip(s[1..]) else s
  }

  /** `s.lstrip()` is a suffix of `s`, and what it drops is whitespace. */
  lemma {:induction false} LStripSuffix(s: string)
    ensures LStrip(s) == s[|s| - |LStrip(s)|..]
    ensures forall k :: 0 <= k < |s| - |LStrip(s)| ==> IsSpace(s[k])
    decreases |s|
  {
    if |s| > 0 && IsSpace(s[0]) {
      LStripSuffix(s[1..]);
      assert s[1..][|s| - 1 - |LStrip(s)|..] == s[|s| - |LStrip(s)|..];
      forall k | 0 <= k < |s| - |LStrip(s)| ensures IsSpace(s[k]) {
        if k > 0 { assert s[k] == s[1..][k - 1]; }
      }
    }
  }

  /** `s.rstrip()`. */
  function RStrip(s: string): (r: string)
    ensures |r| <= |s|
    ensures |r| == 0 || !IsSpace(r[|r| - 1])
    decreases |s|
  {
    if |s| > 0 && IsSpace(s[|s| - 1]) then RStrip(s[..|s| - 1]) else s
  }

  /** `s.rstrip()` is a prefix of `s`, and what it drops is whitespace. */
  lemma {:induction false} RStripPrefix(s: string)
    ensures RStrip(s) == s[..|RStrip(s)|]
    ensures forall k :: |RStrip(s)| <= k < |s| ==> IsSpace(s[k])
    decreases |s|
  {
    if |s| > 0 && IsSpace(s[|s| - 1]) {
      RStripPrefix(s[..|s| - 1]);
      assert s[..|s| - 1][..|RStrip(s)|] == s[..|RStrip(s)|];
      forall k | |RStrip(s)| <= k < |s| ensures IsSpace(s[k]) {
        if k < |s| - 1 { assert s[k] == s[..|s| - 1][k]; }
      }
    }
  }

  predicate IsStripped(s: string) { |s| == 0 || (!IsSpace(s[0]) && !IsSpace(s[|s| - 1])) }

  /** `s.strip()`. */
  function Strip(s: string): (r: string)
    ensures IsStripped(r)
    ensures IsInfix(r, s)
    ensures |r| <= |s|
  {
    var l := LStrip(s);
    var r := RStrip(l);
    LStripSuffix(s);
    RStripPrefix(l);
    assert OccursAt(s, r, |s| - |l|) by {
      assert s[|s| - |l|..][..|r|] == r;
    }
    assert |r| == 0 || !IsSpace(r[0]) by {
      if |r| > 0 { assert r[0] == l[0]; }
    }
    r
  }

  lemma StripStripped(s: string)
    requires IsStripped(s)
    ensures Strip(s) == s
  {
    assert LStrip(s) == s;
  }

  lemma StripIdempotent(s: string)
    ensures Strip(Strip(s)) == Strip(s)
  {
    StripStripped(Strip(s));
  }

  /** Stripping only removes whitespace: a non-space character survives. */
  lemma StripKeepsNonSpace(s: string, k: nat)
    requires k < |s| && !IsSpace(s[k])
    ensures exists j: nat :: j < |Strip(s)| && Strip(s)[j] == s[k]
  {
    var l := LStrip(s);
    LStripSuffix(s);
    RStripPrefix(l);
    var off := |s| - |l|;
    assert k >= off;
    assert l[k - off] == s[k];
    var r := RStrip(l);
    assert k - off < |r|;
    assert r[k - off] == s[k];
    assert Strip(s) == r;
  }

  /** Stripping keeps a text free of a character that it lacks. */
  lemma StripAvoids(s: string, c: char)
    requires forall j :: 0 <= j < |s| ==> s[j] != c
    ensures forall j :: 0 <= j < |Strip(s)| ==> Strip(s)[j] != c
  {
    var a: nat :| OccursAt(s, Strip(s), a);
    forall j | 0 <= j < |Strip(s)| ensures Strip(s)[j] != c {
      assert Strip(s)[j] == s[a + j];
    }
  }

  lemma StripHasDigit(s: string)
    requires HasDigit(s)
    ensures HasDigit(Strip(s))
  {
    var k :| 0 <= k < |s| && IsDigit(s[k]);
    StripKeepsNonSpace(s, k);
  }

  /** `s.lstrip(c)`: removes every leading `c`. */
  function LStripChar(s: string, c: char): (r: string)
    ensures |r| <= |s| && r == s[|s| - |r|..]
    ensures |r| == 0 || r[0] != c
    decreases |s|
  {
    if |s| > 0 && s[0] == c then LStripChar(s[1..], c) else s
  }

  // ---------------------------------------------------------------- split and join

  /** `s.split(sep)` for a non-empty separator. */
  function Split(s: string, sep: string): (parts: seq<string>)
    requires |sep| > 0
    ensures |parts| >= 1
    ensures |parts| == 1 <==> !Contains(s, sep)
    decreases |s|
  {
    var k := Find(s, sep);
    if k < 0 then [s] else [s[..k]] + Split(s[k + |sep|..], sep)
  }

  /** `s.split(sep)[0]`: the text before the first separator. */
  function Before(s: string, sep: string): (r: string)
    requires |sep| > 0
    ensures r <= s
    ensures !Contains(r, sep)
    ensures Contains(s, sep) ==> OccursAt(s, sep, |r|)
    ensures !Contains(s, sep) ==> r == s
  {
    var k := Find(s, sep);
    if k < 0 then s
    else
      assert !Contains(s[..k], sep) by {
        forall j: nat | OccursAt(s[..k], sep, j) ensures false {
          assert s[j..j + |sep|] == s[..k][j..j + |sep|];
          assert OccursAt(s, sep, j);
        }
      }
      s[..k]
  }

  /** `s.split(sep)[1]`: the text between the first and second separators. */
  function Between(s: string, sep: string): (r: string)
    requires |sep| > 0 && Contains(s, sep)
    ensures r == Split(s, sep)[1]
  {
    Split(s, sep)[1]
  }

  /** `text.split("\n")`. */
  function Lines(text: string): (ls: seq<string>)
    ensures |ls| >= 1
  {
    Split(text, "\n")
  }

  /** `sep.join(parts)`. */
  function Join(sep: string, parts: seq<string>): string
    decreases |parts|
  {
    if |parts| == 0 then "" else if |parts| == 1 then parts[0] else parts[0] + sep + Join(sep, parts[1..])
  }

  /** The length of the run of non-space characters starting at `i`. */
  function WordRun(s: string, i: nat): (n: nat)
    requires i <= |s|
    ensures i + n <= |s| && NoSpace(s[i..i + n])
    ensures i + n == |s| || IsSpace(s[i + n])
    decreases |s| - i
  {
    if i < |s| && !IsSpace(s[i]) then 1 + WordRun(s, i + 1) else 0
  }

  /** `s[i..].split()`: the maximal runs of non-space characters. */
  function WordsFrom(s: string, i: nat): (ws: seq<string>)
    requires i <= |s|
    ensures forall k :: 0 <= k < |ws| ==> |ws[k]| > 0 && NoSpace(ws[k])
    decreases |s| - i
  {
    SpaceRunSpaces(s, i);
    var j := i + SpaceRun(s, i);
    if j == |s| then []
    else
      var n := WordRun(s, j);
      [s[j..j + n]] + WordsFrom(s, j + n)
  }

  /** `s.split()`. */
  function Words(s: string): (ws: seq<string>)
    ensures forall k :: 0 <= k < |ws| ==> |ws[k]| > 0 && NoSpace(ws[k])
  {
    WordsFrom(s, 0)
  }

  /** Two words and the whitespace between them make at least three characters. */
  lemma WordsTwoLength(s: string)
    ensures |Words(s)| >= 2 ==> |s| >= 3
  {
    SpaceRunSpaces(s, 0);
    var j := SpaceRun(s, 0);
    if j < |s| {
      var n := WordRun(s, j);
      SpaceRunSpaces(s, j + n);
      if |WordsFrom(s, j + n)| >= 1 {
        assert j + n + SpaceRun(s, j + n) < |s|;
        assert SpaceRun(s, j + n) >= 1;
      }
    }
  }

  /** `' '.join(s.split())`. */
  function Collapse(s: string): string { Join(" ", Words(s)) }

  /** A word, a space and a single-spaced text that starts with a non-space are single-spaced. */
  lemma WordSpaceSingle(w: string, q: string)
    requires |w| > 0 && NoSpace(w)
    requires SingleSpaced(q) && |q| > 0 && !IsSpace(q[0])
    ensures SingleSpaced(w + " " + q)
  {
    var t := w + " " + q;
    forall k | 0 <= k < |t| && IsSpace(t[k]) ensures t[k] == ' ' && (k + 1 == |t| || !IsSpace(t[k + 1])) {
      if k > |w| {
        assert t[k] == q[k - |w| - 1];
        if k + 1 < |t| { assert t[k + 1] == q[k - |w|]; }
      }
    }
  }

  /** Words joined by single spaces: single-spaced, stripped, and starting with the first word. */
  lemma {:induction false} JoinWordsSingle(ws: seq<string>)
    requires forall k :: 0 <= k < |ws| ==> |ws[k]| > 0 && NoSpace(ws[k])
    ensures SingleSpaced(Join(" ", ws)) && IsStripped(Join(" ", ws))
    ensures |ws| > 0 ==> |Join(" ", ws)| > 0 && !IsSpace(Join(" ", ws)[0])
    decreases |ws|
  {
    if |ws| == 1 {
      assert Join(" ", ws) == ws[0];
    } else if |ws| > 1 {
      var q := Join(" ", ws[1..]);
      JoinWordsSingle(ws[1..]);
      assert ws[1..][0] == ws[1];
      WordSpaceSingle(ws[0], q);
      var t := ws[0] + " " + q;
      assert Join(" ", ws) == t;
      assert t[0] == ws[0][0];
      assert t[|t| - 1] == q[|q| - 1];
    }
  }

  /** `' '.join(s.split())` is single-spaced and stripped. */
  lemma CollapseSingle(s: string)
    ensures SingleSpaced(Collapse(s)) && IsStripped(Collapse(s))
  {
    JoinWordsSingle(Words(s));
  }

  /** The length of the whitespace run starting at `i`. */
  function SpaceRun(s: string, i: nat): (n: nat)
    requires i <= |s|
    ensures i + n <= |s|
    decreases |s| - i
  {
    if i < |s| && IsSpace(s[i]) then 1 + SpaceRun(s, i + 1) else 0
  }

  /** The run `SpaceRun` measures is maximal and whitespace throughout. */
  lemma {:induction false} SpaceRunSpaces(s: string, i: nat)
    requires i <= |s|
    ensures AllSpace(s[i..i + SpaceRun(s, i)])
    ensures i + SpaceRun(s, i) == |s| || !IsSpace(s[i + SpaceRun(s, i)])
    decreases |s| - i
  {
    if i < |s| && IsSpace(s[i]) {
      SpaceRunSpaces(s, i + 1);
      var n := SpaceRun(s, i + 1);
      assert s[i..i + 1 + n] == [s[i]] + s[i + 1..i + 1 + n];
    }
  }

  /** `re.sub(r"\s+", " ", s)`: every maximal whitespace run becomes one space. */
  function SquashSpaces(s: string): (r: string)
    ensures |r| <= |s|
    decreases |s|
  {
    if |s| == 0 then ""
    else if IsSpace(s[0]) then " " + SquashSpaces(s[SpaceRun(s, 0)..])
    else [s[0]] + SquashSpaces(s[1..])
  }

  /** `re.sub(r"\s+", "-", s)`: every maximal whitespace run becomes one hyphen. */
  function HyphenateSpaces(s: string): (r: string)
    ensures |r| <= |s|
    ensures NoSpace(r)
    decreases |s|
  {
    if |s| == 0 then ""
    else if IsSpace(s[0]) then "-" + HyphenateSpaces(s[SpaceRun(s, 0)..])
    else [s[0]] + HyphenateSpaces(s[1..])
  }

  /** Every whitespace character is a single space, and no two of them are adjacent. */
  predicate SingleSpaced(s: string)
  {
    forall k :: 0 <= k < |s| && IsSpace(s[k]) ==> s[k] == ' ' && (k + 1 == |s| || !IsSpace(s[k + 1]))
  }

  lemma ConsSingleSpaced(c: char, q: string)
    requires SingleSpaced(q)
    requires !IsSpace(c) || (c == ' ' && (|q| == 0 || !IsSpace(q[0])))
    ensures SingleSpaced([c] + q)
  {
    var w := [c] + q;
    forall k | 0 <= k < |w| && IsSpace(w[k]) ensures w[k] == ' ' && (k + 1 == |w| || !IsSpace(w[k + 1])) {
      if k > 0 {
        assert w[k] == q[k - 1];
        if k + 1 < |w| { assert w[k + 1] == q[k]; }
      }
    }
  }

  /** The text `SquashSpaces` leaves has single spaces only. */
  lemma {:induction false} SquashSpacesSingle(s: string)
    ensures SingleSpaced(SquashSpaces(s))
    ensures |s| > 0 && !IsSpace(s[0]) ==> |SquashSpaces(s)| > 0 && SquashSpaces(s)[0] == s[0]
    ensures |s| > 0 ==> |SquashSpaces(s)| > 0
    decreases |s|
  {
    if |s| > 0 {
      if IsSpace(s[0]) {
        SpaceRunSpaces(s, 0);
        var t := s[SpaceRun(s, 0)..];
        SquashSpacesSingle(t);
        ConsSingleSpaced(' ', SquashSpaces(t));
      } else {
        SquashSpacesSingle(s[1..]);
        ConsSingleSpaced(s[0], SquashSpaces(s[1..]));
      }
    }
  }

  lemma InfixSingleSpaced(t: string, s: string)
    requires IsInfix(t, s) && SingleSpaced(s)
    ensures SingleSpaced(t)
  {
    var a: nat :| OccursAt(s, t, a);
    forall k | 0 <= k < |t| && IsSpace(t[k]) ensures t[k] == ' ' && (k + 1 == |t| || !IsSpace(t[k + 1])) {
      assert t[k] == s[a + k];
      if k + 1 < |t| { assert t[k + 1] == s[a + k + 1]; }
    }
  }

  lemma SuffixSingleSpaced(t: string, n: nat)
    requires n <= |t| && SingleSpaced(t)
    ensures SingleSpaced(t[n..])
  {
    var d := t[n..];
    forall k | 0 <= k < |d| && IsSpace(d[k]) ensures d[k] == ' ' && (k + 1 == |d| || !IsSpace(d[k + 1])) {
      assert d[k] == t[n + k];
      if k + 1 < |d| { assert d[k + 1] == t[n + k + 1]; }
    }
  }

  /** `s.rfind(c, 0, hi)`: the last index below `hi` holding `c`, or -1. */
  function RFindChar(s: string, c: char, hi: nat): (r: int)
    requires hi <= |s|
    ensures -1 <= r < hi
    ensures r >= 0 ==> s[r] == c
    ensures forall k :: r < k < hi ==> s[k] != c
    decreases hi
  {
    if hi == 0 then -1 else if s[hi - 1] == c then hi - 1 else RFindChar(s, c, hi - 1)
  }

  // ---------------------------------------------------------------- replace

  /** `s.replace(pat, rep)`: left-to-right, non-overlapping. */
  function Replace(s: string, pat: string, rep: string): string
    requires |pat| > 0
    decreases |s|
  {
    if |s| < |pat| then s
    else if pat <= s then rep + Replace(s[|pat|..], pat, rep)
    else [s[0]] + Replace(s[1..], pat, rep)
  }

  lemma HasDigitConcat(a: string, b: string)
    ensures HasDigit(a + b) <==> HasDigit(a) || HasDigit(b)
  {
    if HasDigit(a + b) {
      var k :| 0 <= k < |a + b| && IsDigit((a + b)[k]);
      if k >= |a| { assert b[k - |a|] == (a + b)[k]; }
    }
    if HasDigit(a) {
      var k :| 0 <= k < |a| && IsDigit(a[k]);
      assert (a + b)[k] == a[k];
    }
    if HasDigit(b) {
      var k :| 0 <= k < |b| && IsDigit(b[k]);
      assert (a + b)[|a| + k] == b[k];
    }
  }

  /** Replacing digit-free text by digit-free text neither adds nor removes a digit. */
  lemma {:induction false} ReplaceHasDigit(s: string, pat: string, rep: string)
    requires |pat| > 0 && !HasDigit(pat) && !HasDigit(rep)
    ensures HasDigit(Replace(s, pat, rep)) <==> HasDigit(s)
    decreases |s|
  {
    if |s| >= |pat| {
      if pat <= s {
        ReplaceHasDigit(s[|pat|..], pat, rep);
        HasDigitConcat(rep, Replace(s[|pat|..], pat, rep));
        assert s == pat + s[|pat|..];
        HasDigitConcat(pat, s[|pat|..]);
      } else {
        ReplaceHasDigit(s[1..], pat, rep);
        HasDigitConcat([s[0]], Replace(s[1..], pat, rep));
        assert s == [s[0]] + s[1..];
        HasDigitConcat([s[0]], s[1..]);
      }
    }
  }

  /** Replacing a pattern by itself changes nothing. */
  lemma {:induction false} ReplaceSame(s: string, pat: string)
    requires |pat| > 0
    ensures Replace(s, pat, pat) == s
    decreases |s|
  {
    if |s| >= |pat| {
      if pat <= s {
        ReplaceSame(s[|pat|..], pat);
        assert s == s[..|pat|] + s[|pat|..];
      } else {
        ReplaceSame(s[1..], pat);
        assert s == [s[0]] + s[1..];
      }
    }
  }

  /** Replacing a single character by another is a character-wise map. */
  lemma ReplaceChar(s: string, a: char, b: char)
    ensures |Replace(s, [a], [b])| == |s|
    ensures forall k :: 0 <= k < |s| ==> Replace(s, [a], [b])[k] == (if s[k] == a then b else s[k])
    decreases |s|
  {
    if |s| > 0 {
      ReplaceChar(s[1..], a, b);
    }
  }

  /** An occurrence in the tail is an occurrence in the whole. */
  lemma ContainsTail(s: string, pat: string)
    requires |s| > 0
    ensures Contains(s[1..], pat) ==> Contains(s, pat)
  {
    if Contains(s[1..], pat) {
      var k: nat :| OccursAt(s[1..], pat, k);
      assert s[1..][k..k + |pat|] == s[k + 1..k + 1 + |pat|];
      assert OccursAt(s, pat, k + 1);
    }
  }

  lemma ReplaceAbsent(s: string, pat: string, rep: string)
    requires |pat| > 0 && !Contains(s, pat)
    ensures Replace(s, pat, rep) == s
    decreases |s|
  {
    if |s| >= |pat| {
      assert !OccursAt(s, pat, 0);
      assert s[..|pat|] == s[0..0 + |pat|];
      ContainsTail(s, pat);
      ReplaceAbsent(s[1..], pat, rep);
    }
  }

  /** `s.replace(",", "")` (or any single character): that character no longer occurs. */
  lemma {:induction false} ReplaceRemovesChar(s: string, c: char)
    ensures forall k :: 0 <= k < |Replace(s, [c], "")| ==> Replace(s, [c], "")[k] != c
    decreases |s|
  {
    if |s| >= 1 {
      ReplaceRemovesChar(s[1..], c);
      var q := Replace(s[1..], [c], "");
      if [c] <= s {
        assert Replace(s, [c], "") == q;
      } else {
        assert s[0] != c;
        assert Replace(s, [c], "") == [s[0]] + q;
      }
    }
  }

  /** Dropping the commas of a run of digits and commas leaves digits only. */
  lemma {:induction false} ReplaceCommasDigits(s: string)
    requires forall k :: 0 <= k < |s| ==> IsDigit(s[k]) || s[k] == ','
    ensures AllDigits(Replace(s, ",", ""))
    decreases |s|
  {
    if |s| >= 1 {
      ReplaceCommasDigits(s[1..]);
      var q := Replace(s[1..], ",", "");
      if "," <= s {
        assert Replace(s, ",", "") == q;
      } else {
        assert Replace(s, ",", "") == [s[0]] + q;
      }
    }
  }

  // ---------------------------------------------------------------- numbers

  /** `re.findall(r"\d+", s)[0]`, or None when `s` has no digit. */
  function FirstDigitRun(s: string): (r: Option<string>)
    ensures r.None? <==> !HasDigit(s)
    ensures r.Some? ==> |r.value| > 0 && AllDigits(r.value) && IsInfix(r.value, s)
    decreases |s|
  {
    if |s| == 0 then None
    else if IsDigit(s[0]) then
      var n := DigitRun(s, 0);
      assert OccursAt(s, s[..n], 0);
      Some(s[..n])
    else
      var r := FirstDigitRun(s[1..]);
      if r.Some? then
        var a: nat :| OccursAt(s[1..], r.value, a);
        assert s[a + 1..a + 1 + |r.value|] == s[1..][a..a + |r.value|];
        assert OccursAt(s, r.value, a + 1);
        r
      else
        assert !HasDigit(s) by {
          forall k | 0 <= k < |s| ensures !IsDigit(s[k]) {
            if k > 0 { assert s[k] == s[1..][k - 1]; }
          }
        }
        r
  }

  /** The length of the digit run starting at `i`. */
  function DigitRun(s: string, i: nat): (n: nat)
    requires i <= |s|
    ensures i + n <= |s| && AllDigits(s[i..i + n])
    ensures i + n == |s| || !IsDigit(s[i + n])
    decreases |s| - i
  {
    if i < |s| && IsDigit(s[i]) then
      var m := DigitRun(s, i + 1);
      DigitsExtend(s, i, m);
      1 + m
    else 0
  }

  lemma DigitsExtend(s: string, i: nat, m: nat)
    requires i + 1 + m <= |s| && IsDigit(s[i]) && AllDigits(s[i + 1..i + 1 + m])
    ensures AllDigits(s[i..i + 1 + m])
  {
    var t := s[i..i + 1 + m];
    forall k | 0 <= k < |t| ensures IsDigit(t[k]) {
      if k > 0 { assert t[k] == s[i + 1..i + 1 + m][k - 1]; }
    }
  }

  function DigitValue(c: char): nat requires IsDigit(c) { c as int - '0' as int }

  /** `int(d)` for a string of ASCII digits (the empty string reads as 0). */
  function ParseNat(d: string): nat
    requires AllDigits(d)
    decreases |d|
  {
    if |d| == 0 then 0 else 10 * ParseNat(d[..|d| - 1]) + DigitValue(d[|d| - 1])
  }

  function DigitChar(n: nat): (c: char)
    requires n < 10
    ensures IsDigit(c)
  {
    ('0' as int + n) as char
  }

  /** `str(n)`. */
  function NatToString(n: nat): (s: string)
    ensures |s| > 0 && AllDigits(s)
    decreases n
  {
    if n < 10 then [DigitChar(n)] else NatToString(n / 10) + [DigitChar(n % 10)]
  }

  lemma ParseNatToString(n: nat)
    ensures ParseNat(NatToString(n)) == n
    decreases n
  {
    var s := NatToString(n);
    if n >= 10 {
      ParseNatToString(n / 10);
      assert s[..|s| - 1] == NatToString(n / 10);
    }
  }

  // ---------------------------------------------------------------- lines

  /** `[l.strip() for l in text.split("\n") if l.strip()]`. */
  function StrippedNonBlank(ls: seq<string>): (r: seq<string>)
    ensures forall k :: 0 <= k < |r| ==> r[k] != "" && IsStripped(r[k])
    decreases |ls|
  {
    if |ls| == 0 then []
    else if Strip(ls[0]) == "" then StrippedNonBlank(ls[1..])
    else [Strip(ls[0])] + StrippedNonBlank(ls[1..])
  }
}
