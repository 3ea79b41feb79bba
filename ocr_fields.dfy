/**
 * What the three pattern-table extractors (spam_scanned.py, scannedpdf.py, textpdf.py)
 * share: a dictionary filled field by field from a table, the "first pattern whose cleaned
 * value is truthy" search, the removal of a leading "Remarks:" label, the restriction of the
 * date fields to the text after the "Policy Period" line, and the two-pattern remarks search.
 */
module OcrFields {
  import opened Common
  import opened Text
  import opened Regex

  // ---------------------------------------------------------------- characters

  /** `re.sub('[^...]', '', s)`: the characters of `s` that `ok` admits, in order. */
  function KeepChars(s: string, ok: char -> bool): (r: string)
    ensures |r| <= |s|
    ensures forall k :: 0 <= k < |r| ==> ok(r[k])
    decreases |s|
  {
    if |s| == 0 then "" else if ok(s[0]) then [s[0]] + KeepChars(s[1..], ok) else KeepChars(s[1..], ok)
  }

  /** A character `ok` admits is kept: every admitted character of `s` survives, in order. */
  lemma {:induction false} KeepCharsAdmitted(s: string, ok: char -> bool)
    requires forall k :: 0 <= k < |s| ==> ok(s[k])
    ensures KeepChars(s, ok) == s
    decreases |s|
  {
    if |s| > 0 {
      KeepCharsAdmitted(s[1..], ok);
      assert s == [s[0]] + s[1..];
    }
  }

  // ---------------------------------------------------------------- the dictionary

  /** `{name: get(name) for name in names}` */
  function Filled(names: seq<string>, get: string -> Option<string>): map<string, Option<string>>
  {
    map n | n in names :: get(n)
  }

  /** `for field_name in self.patterns.keys(): extracted_data[field_name] = self.extract_field(text, field_name)` */
  method FillFields(names: seq<string>, get: string -> Option<string>) returns (m: map<string, Option<string>>)
    ensures m.Keys == set n | n in names
    ensures forall n :: n in names ==> m[n] == get(n)
    ensures m == Filled(names, get)
  {
    m := map[];
    var i := 0;
    while i < |names|
      invariant i <= |names|
      invariant m.Keys == set n | n in names[..i]
      invariant forall n :: n in names[..i] ==> m[n] == get(n)
    {
      assert names[..i + 1] == names[..i] + [names[i]];
      m := m[names[i] := get(names[i])];
      i := i + 1;
    }
    assert names[..i] == names;
  }

  // ---------------------------------------------------------------- the first truthy cleaned value

  /** Group 1 of the first match of pattern `p` in `s` (`re.findall(p, s)[0]`), if it matches. */
  function FirstGroupOf(p: Pattern, s: string): Option<string>
  {
    var m := Search(p, s);
    if m.Some? then Some(GroupText(m.value, s, 1)) else None
  }

  /**
   * `for pattern in patterns: matches = re.findall(...); if matches: value = clean(matches[0]);
   * if value: return value`, and `None` after the loop: the first pattern that matches and
   * whose first match cleans to a non-empty value.
   */
  function FirstCleaned(ps: seq<Pattern>, s: string, clean: string -> Option<string>): (r: Option<string>)
  {
    FirstCleanedFrom(ps, s, clean, 0)
  }

  /** The same loop from pattern `i` on. */
  function FirstCleanedFrom(ps: seq<Pattern>, s: string, clean: string -> Option<string>, i: nat): (r: Option<string>)
    requires i <= |ps|
    decreases |ps| - i
  {
    if i == |ps| then None
    else
      var g := FirstGroupOf(ps[i], s);
      if g.Some? && Truthy(clean(g.value)) then clean(g.value) else FirstCleanedFrom(ps, s, clean, i + 1)
  }

  /** Pattern `k` is one the loop passes over: it does not match, or its value is empty or None. */
  predicate Passed(ps: seq<Pattern>, s: string, clean: string -> Option<string>, k: nat)
    requires k < |ps|
  {
    var g := FirstGroupOf(ps[k], s);
    g.None? || !Truthy(clean(g.value))
  }

  lemma {:induction false} FirstCleanedFromIs(ps: seq<Pattern>, s: string, clean: string -> Option<string>, i: nat)
    requires i <= |ps|
    ensures var r := FirstCleanedFrom(ps, s, clean, i);
            (r.None? <==> forall k :: i <= k < |ps| ==> Passed(ps, s, clean, k)) &&
            (r.Some? ==> (r.value != "" &&
               exists k :: i <= k < |ps| && !Passed(ps, s, clean, k) && (forall j :: i <= j < k ==> Passed(ps, s, clean, j)) &&
                           r == clean(FirstGroupOf(ps[k], s).value)))
    decreases |ps| - i
  {
    var r := FirstCleanedFrom(ps, s, clean, i);
    if i < |ps| {
      FirstCleanedFromIs(ps, s, clean, i + 1);
      var g := FirstGroupOf(ps[i], s);
      if g.Some? && Truthy(clean(g.value)) {
        assert r == clean(g.value);
        assert !Passed(ps, s, clean, i);
      } else {
        assert Passed(ps, s, clean, i);
        var r' := FirstCleanedFrom(ps, s, clean, i + 1);
        assert r == r';
        if r'.Some? {
          var k :| i + 1 <= k < |ps| && !Passed(ps, s, clean, k) && (forall j :: i + 1 <= j < k ==> Passed(ps, s, clean, j)) &&
                   r' == clean(FirstGroupOf(ps[k], s).value);
          assert forall j :: i <= j < k ==> Passed(ps, s, clean, j);
        }
      }
    }
  }

  /**
   * The value is that of the first pattern that is not passed over: its first match's
   * group 1, cleaned and non-empty; when every pattern is passed over there is none.
   */
  lemma FirstCleanedIs(ps: seq<Pattern>, s: string, clean: string -> Option<string>)
    ensures var r := FirstCleaned(ps, s, clean);
            (r.None? <==> forall k :: 0 <= k < |ps| ==> Passed(ps, s, clean, k)) &&
            (r.Some? ==> (r.value != "" &&
               exists k :: 0 <= k < |ps| && !Passed(ps, s, clean, k) && (forall j :: 0 <= j < k ==> Passed(ps, s, clean, j)) &&
                           r == clean(FirstGroupOf(ps[k], s).value)))
  {
    FirstCleanedFromIs(ps, s, clean, 0);
  }

  /** The loop over the patterns. */
  method SearchCleaned(ps: seq<Pattern>, s: string, clean: string -> Option<string>) returns (r: Option<string>)
    ensures r == FirstCleaned(ps, s, clean)
  {
    var k := 0;
    while k < |ps|
      invariant k <= |ps|
      invariant FirstCleanedFrom(ps, s, clean, k) == FirstCleaned(ps, s, clean)
    {
      var m := Search(ps[k], s);
      if m.Some? {
        var value := clean(GroupText(m.value, s, 1));
        if value.Some? && value.value != "" {
          return value;
        }
      }
      k := k + 1;
    }
    return None;
  }

  // ---------------------------------------------------------------- Remarks

  /** `^(Remarks?\s*:?\s*)`, IGNORECASE. */
  const RemarksLabel: Pattern := CI([Lit("Remark"), Rep(Chars("s"), 0, AtMost(1), true), Ws0, OptColon, Ws0])

  /** `re.sub(r'^(Remarks?\s*:?\s*)', '', s, flags=re.IGNORECASE)`: a leading label is dropped. */
  function DropRemarksLabel(s: string): (r: string)
    ensures IsInfix(r, s)
  {
    var m := MatchFrom(RemarksLabel, s, 0);
    if m.Some? then
      assert OccursAt(s, s[m.value.end..], m.value.end);
      s[m.value.end..]
    else
      assert OccursAt(s, s, 0);
      s
  }

  /** The cleaning of the "Remarks" field: whitespace runs squashed, the label dropped, stripped. */
  function CleanRemarks(w: string): (r: string)
    ensures IsStripped(r)
  {
    Strip(DropRemarksLabel(SquashSpaces(w)))
  }

  /** A cleaned remark has single spaces only. */
  lemma CleanRemarksSingle(w: string)
    ensures SingleSpaced(CleanRemarks(w))
  {
    var q := SquashSpaces(w);
    SquashSpacesSingle(w);
    InfixSingleSpaced(DropRemarksLabel(q), q);
    InfixSingleSpaced(CleanRemarks(w), DropRemarksLabel(q));
  }

  /** `(?=(?:Important\s+Note|For\s+Real\s+time|Address|For\s+any\s+cashless|Terms\s+and\s+Conditions))` */
  const RemarksEnd: Item := Ahead([
    Seq(PhraseItems(["Important", "Note"])), Seq(PhraseItems(["For", "Real", "time"])), Lit("Address"),
    Seq(PhraseItems(["For", "any", "cashless"])), Seq(PhraseItems(["Terms", "and", "Conditions"]))])

  /** `Pre\s*authorization\s+request\s+is\s+approved.*?` under DOTALL, as group 1. */
  const ApprovedRemark: Item := Group(1, [Lit("Pre"), Ws0] + PhraseItems(["authorization", "request", "is", "approved"]) +
                                         [Rep(AnyChar, 0, Unbounded, false)])

  /** `([^:]*?)`, as group 1. */
  const UpToColon: Item := Cap(1, Negate(Chars(":")), 0, Unbounded, false)

  /** `re.sub(r'\s+', ' ', match.group(1).strip())` */
  function RemarkText(g: string): string { SquashSpaces(Strip(g)) }

  /**
   * `extract_remarks`: the approved-request block when `approved` matches, whatever its
   * length; else the `generic` block, only when it is longer than 50 characters.
   */
  function Remarks(approved: Pattern, generic: Pattern, text: string): (r: Option<string>)
  {
    var a := FirstGroupOf(approved, text);
    if a.Some? then Some(RemarkText(a.value))
    else
      var g := FirstGroupOf(generic, text);
      if g.Some? && |RemarkText(g.value)| > 50 then Some(RemarkText(g.value)) else None
  }

  /** The remarks have single spaces only, and a generic block is longer than 50 characters. */
  lemma RemarksShape(approved: Pattern, generic: Pattern, text: string)
    ensures Remarks(approved, generic, text).Some? ==> SingleSpaced(Remarks(approved, generic, text).value)
    ensures FirstGroupOf(approved, text).None? && Remarks(approved, generic, text).Some? ==>
              |Remarks(approved, generic, text).value| > 50
    ensures FirstGroupOf(approved, text).Some? ==> Remarks(approved, generic, text).Some?
  {
    var a := FirstGroupOf(approved, text);
    if a.Some? {
      SquashSpacesSingle(Strip(a.value));
    } else {
      var g := FirstGroupOf(generic, text);
      if g.Some? {
        SquashSpacesSingle(Strip(g.value));
      }
    }
  }

  method ExtractRemarks(approved: Pattern, generic: Pattern, text: string) returns (r: Option<string>)
    ensures r == Remarks(approved, generic, text)
  {
    var m := Search(approved, text);
    if m.Some? {
      var remarks := Strip(GroupText(m.value, text, 1));
      remarks := SquashSpaces(remarks);
      return Some(remarks);
    }
    m := Search(generic, text);
    if m.Some? {
      var remarks := Strip(GroupText(m.value, text, 1));
      remarks := SquashSpaces(remarks);
      if |remarks| > 50 {
        return Some(remarks);
      }
    }
    return None;
  }

  // ---------------------------------------------------------------- the date fields' text

  /** `Policy\s+Period\s*:?.*?\n`, IGNORECASE, `.` not matching a newline. */
  const PolicyPeriodLine: Pattern := CI(PhraseItems(["Policy", "Period"]) + [Ws0, OptColon, Rep(NotNewline, 0, Unbounded, false), Lit("\n")])

  /** `text[policy_match.end():]` when the "Policy Period" line is found, else the whole text. */
  function AfterPolicyPeriod(text: string): (r: string)
    ensures r <= text || (|r| <= |text| && r == text[|text| - |r|..])
  {
    var m := Search(PolicyPeriodLine, text);
    if m.Some? then text[m.value.end..] else text
  }
}
