/**
 * The fragment of Python's `re` that the extractors' patterns are written in, with
 * Python's backtracking priority: a literal, a repeated character class (greedy or lazy,
 * optionally captured as a group), a capturing group over a sequence, an ordered
 * alternation `(?:a|b)`, a positive lookahead `(?=a|b)`, `$` and `\b`. Flags: IGNORECASE
 * (ASCII case folding) and MULTILINE (for `$`); DOTALL is expressed by the class used for `.`.
 * Every pattern of the extractors is a constant of type `Pattern`.
 */
module Regex {
  import opened Common
  import opened Text

  datatype CharClass =
    | AnyChar                            // `.` under DOTALL, `[\s\S]`
    | NotNewline                         // `.` without DOTALL
    | Digit                              // `\d`
    | Space                              // `\s`
    | Word                               // `\w`
    | Range(lo: char, hi: char)          // `lo-hi` inside a class
    | Chars(cs: string)                  // listed characters inside a class
    | Union(a: CharClass, b: CharClass)  // `[ab]`
    | Negate(a: CharClass)               // `[^a]`

  /** Whether `c` belongs to class `k`; under IGNORECASE a letter also matches its other case. */
  predicate InClass(c: char, k: CharClass, ci: bool)
  {
    match k
    case AnyChar => true
    case NotNewline => c != '\n'
    case Digit => IsDigit(c)
    case Space => IsSpace(c)
    case Word => IsWordChar(c)
    case Range(lo, hi) => (lo <= c <= hi) || (ci && ((lo <= ToLower(c) <= hi) || (lo <= ToUpper(c) <= hi)))
    case Chars(cs) => c in cs || (ci && (ToLower(c) in cs || ToUpper(c) in cs))
    case Union(a, b) => InClass(c, a, ci) || InClass(c, b, ci)
    case Negate(a) => !InClass(c, a, ci)
  }

  datatype Bound = Unbounded | AtMost(n: nat)

  datatype Item =
    | Lit(text: string)                                              // literal characters
    | Rep(cls: CharClass, lo: nat, hi: Bound, greedy: bool)          // cls{lo,hi} or cls{lo,hi}?
    | Cap(n: nat, cls: CharClass, lo: nat, hi: Bound, greedy: bool)  // (cls{lo,hi}) as group n
    | Group(n: nat, body: seq<Item>)                                 // (body) as group n
    | Seq(body: seq<Item>)                                           // a sequence used as one alternative
    | Alt(alts: seq<Item>)                                           // (?:a|b|...)
    | Ahead(alts: seq<Item>)                                         // (?=a|b|...)
    | LineEnd                                                        // $
    | Boundary                                                       // \b
    | Close(n: nat)                                                  // end of group n (internal)

  datatype Pattern = Pattern(items: seq<Item>, ignoreCase: bool, multiline: bool)

  /** A group's span `s[start..end]`. */
  datatype Span = Span(start: nat, end: nat)
  type Caps = map<nat, Span>

  /** A successful match of the remaining items: where it ended and the groups it set. */
  datatype Found = Found(end: nat, caps: Caps)

  /** A successful search: `s[start..end]` matched the pattern. */
  datatype Match = Match(start: nat, end: nat, caps: Caps)

  // ---------------------------------------------------------------- common pieces

  /** `\s*` and `\s+`. */
  const Ws0: Item := Rep(Space, 0, Unbounded, true)
  const Ws1: Item := Rep(Space, 1, Unbounded, true)
  /** `:?` */
  const OptColon: Item := Rep(Chars(":"), 0, AtMost(1), true)

  /** A case-insensitive pattern (`re.IGNORECASE`). */
  function CI(items: seq<Item>): Pattern { Pattern(items, true, false) }

  /** Items for `w0\s+w1\s+...\s+wn`. */
  function PhraseItems(words: seq<string>): seq<Item>
    decreases |words|
  {
    if |words| == 0 then []
    else if |words| == 1 then [Lit(words[0])]
    else [Lit(words[0]), Rep(Space, 1, Unbounded, true)] + PhraseItems(words[1..])
  }

  // ---------------------------------------------------------------- sizes (termination)

  function Size(it: Item): nat
  {
    match it
    case Group(_, body) => 2 + SizeOf(body)
    case Seq(body) => 1 + SizeOf(body)
    case Alt(alts) => 1 + SizeOf(alts)
    case Ahead(alts) => 1 + SizeOf(alts)
    case Close(_) => 1
    case _ => 2
  }

  function SizeOf(items: seq<Item>): nat
  {
    if |items| == 0 then 0 else Size(items[0]) + SizeOf(items[1..])
  }

  lemma {:induction false} SizeOfAppend(a: seq<Item>, b: seq<Item>)
    ensures SizeOf(a + b) == SizeOf(a) + SizeOf(b)
    decreases |a|
  {
    if |a| == 0 {
      assert a + b == b;
    } else {
      assert (a + b)[0] == a[0];
      assert (a + b)[1..] == a[1..] + b;
      SizeOfAppend(a[1..], b);
      assert SizeOf(a + b) == Size(a[0]) + SizeOf(a[1..] + b);
    }
  }

  lemma SizeOfCons(x: Item, rest: seq<Item>)
    ensures SizeOf([x] + rest) == Size(x) + SizeOf(rest)
  {
    assert ([x] + rest)[1..] == rest;
  }

  // ---------------------------------------------------------------- matching

  /** Every group recorded so far lies within `s[..i]`. */
  predicate CapsBelow(caps: Caps, i: nat)
  {
    forall n :: n in caps ==> caps[n].start <= caps[n].end <= i
  }

  predicate LitAt(s: string, i: nat, t: string, ci: bool)
  {
    i + |t| <= |s| && forall k :: 0 <= k < |t| ==> CharEq(s[i + k], t[k], ci)
  }

  predicate CharEq(c: char, d: char, ci: bool)
  {
    c == d || (ci && ToLower(c) == ToLower(d))
  }

  /** The number of consecutive characters of class `k` from `i`, at most `hi`. */
  function Run(s: string, i: nat, k: CharClass, ci: bool, hi: Bound): (n: nat)
    requires i <= |s|
    ensures i + n <= |s|
    ensures forall j :: i <= j < i + n ==> InClass(s[j], k, ci)
    ensures hi.AtMost? ==> n <= hi.n
    ensures i + n == |s| || !InClass(s[i + n], k, ci) || (hi.AtMost? && n == hi.n)
    decreases |s| - i
  {
    if i == |s| || !InClass(s[i], k, ci) || (hi.AtMost? && hi.n == 0) then 0
    else 1 + Run(s, i + 1, k, ci, if hi.AtMost? then AtMost(hi.n - 1) else Unbounded)
  }

  predicate WordAt(s: string, i: int) { 0 <= i < |s| && IsWordChar(s[i]) }

  /** `$`: the end of the text, or before a final newline; under MULTILINE, before any newline. */
  predicate AtLineEnd(s: string, i: nat, multiline: bool)
  {
    i == |s| || (i < |s| && s[i] == '\n' && (multiline || i == |s| - 1))
  }

  /**
   * The first way, in Python's backtracking order, in which `items` match `s` from `i`
   * with groups `caps` already set.
   */
  function MatchItems(p: Pattern, items: seq<Item>, s: string, i: nat, caps: Caps): (r: Option<Found>)
    requires i <= |s| && CapsBelow(caps, i)
    ensures r.Some? ==> i <= r.value.end <= |s| && CapsBelow(r.value.caps, r.value.end)
    decreases SizeOf(items), 0
  {
    if |items| == 0 then Some(Found(i, caps))
    else
      var rest := items[1..];
      assert SizeOf(items) == Size(items[0]) + SizeOf(rest);
      match items[0]
      case Lit(t) =>
        if LitAt(s, i, t, p.ignoreCase) then MatchItems(p, rest, s, i + |t|, caps) else None
      case Rep(k, lo, hi, greedy) =>
        var run := Run(s, i, k, p.ignoreCase, hi);
        if run < lo then None
        else if greedy then TryDown(p, rest, s, i, caps, lo, run, None)
        else TryUp(p, rest, s, i, caps, lo, run, None)
      case Cap(n, k, lo, hi, greedy) =>
        var run := Run(s, i, k, p.ignoreCase, hi);
        if run < lo then None
        else if greedy then TryDown(p, rest, s, i, caps, lo, run, Some(n))
        else TryUp(p, rest, s, i, caps, lo, run, Some(n))
      case Group(n, body) =>
        SizeOfAppend(body, [Close(n)] + rest);
        MatchItems(p, body + ([Close(n)] + rest), s, i, caps[n := Span(i, i)])
      case Seq(body) =>
        SizeOfAppend(body, rest);
        MatchItems(p, body + rest, s, i, caps)
      case Close(n) =>
        if n in caps then MatchItems(p, rest, s, i, caps[n := Span(caps[n].start, i)]) else None
      case Alt(alts) =>
        if |alts| == 0 then None
        else
          assert SizeOf(alts) == Size(alts[0]) + SizeOf(alts[1..]);
          SizeOfCons(alts[0], rest);
          SizeOfCons(Alt(alts[1..]), rest);
          var first := MatchItems(p, [alts[0]] + rest, s, i, caps);
          if first.Some? then first else MatchItems(p, [Alt(alts[1..])] + rest, s, i, caps)
      case Ahead(alts) =>
        if AnyAt(p, alts, s, i, caps) then MatchItems(p, rest, s, i, caps) else None
      case LineEnd =>
        if AtLineEnd(s, i, p.multiline) then MatchItems(p, rest, s, i, caps) else None
      case Boundary =>
        if WordAt(s, i - 1) != WordAt(s, i) then MatchItems(p, rest, s, i, caps) else None
  }

  /** A greedy repetition: try `cnt` characters, then fewer, down to `lo`. */
  function TryDown(p: Pattern, rest: seq<Item>, s: string, i: nat, caps: Caps, lo: nat, cnt: nat, grp: Option<nat>): (r: Option<Found>)
    requires lo <= cnt && i + cnt <= |s| && CapsBelow(caps, i)
    ensures r.Some? ==> i <= r.value.end <= |s| && CapsBelow(r.value.caps, r.value.end)
    decreases SizeOf(rest) + 1, cnt
  {
    var caps' := if grp.Some? then caps[grp.value := Span(i, i + cnt)] else caps;
    var r := MatchItems(p, rest, s, i + cnt, caps');
    if r.Some? then r
    else if cnt > lo then TryDown(p, rest, s, i, caps, lo, cnt - 1, grp)
    else None
  }

  /** A lazy repetition: try `cnt` characters, then more, up to `run`. */
  function TryUp(p: Pattern, rest: seq<Item>, s: string, i: nat, caps: Caps, cnt: nat, run: nat, grp: Option<nat>): (r: Option<Found>)
    requires cnt <= run && i + run <= |s| && CapsBelow(caps, i)
    ensures r.Some? ==> i <= r.value.end <= |s| && CapsBelow(r.value.caps, r.value.end)
    decreases SizeOf(rest) + 1, run - cnt
  {
    var caps' := if grp.Some? then caps[grp.value := Span(i, i + cnt)] else caps;
    var r := MatchItems(p, rest, s, i + cnt, caps');
    if r.Some? then r
    else if cnt < run then TryUp(p, rest, s, i, caps, cnt + 1, run, grp)
    else None
  }

  /** Some alternative of a lookahead matches at `i`. */
  predicate AnyAt(p: Pattern, alts: seq<Item>, s: string, i: nat, caps: Caps)
    requires i <= |s| && CapsBelow(caps, i)
    decreases SizeOf(alts), 1
  {
    |alts| > 0 &&
      assert SizeOf(alts) == Size(alts[0]) + SizeOf(alts[1..]);
      SizeOfCons(alts[0], []);
      assert [alts[0]] + [] == [alts[0]];
      (MatchItems(p, [alts[0]], s, i, caps).Some? || AnyAt(p, alts[1..], s, i, caps))
  }

  // ---------------------------------------------------------------- searching

  /** `re.match`: the pattern matched at `start`. */
  function MatchFrom(p: Pattern, s: string, start: nat): (r: Option<Match>)
    requires start <= |s|
    ensures r.Some? ==> r.value.start == start && ValidMatch(r.value, s)
  {
    var f := MatchItems(p, p.items, s, start, map[]);
    if f.Some? then Some(Match(start, f.value.end, f.value.caps)) else None
  }

  predicate ValidMatch(m: Match, s: string)
  {
    m.start <= m.end <= |s| && CapsBelow(m.caps, m.end)
  }

  /** `re.search` from position `start` on: the leftmost start at which the pattern matches. */
  function SearchFrom(p: Pattern, s: string, start: nat): (r: Option<Match>)
    requires start <= |s|
    ensures r.Some? ==> start <= r.value.start && ValidMatch(r.value, s) && MatchFrom(p, s, r.value.start) == r
    ensures r.Some? ==> forall k :: start <= k < r.value.start ==> MatchFrom(p, s, k).None?
    ensures r.None? ==> forall k :: start <= k <= |s| ==> MatchFrom(p, s, k).None?
    decreases |s| - start
  {
    var m := MatchFrom(p, s, start);
    if m.Some? then m
    else if start < |s| then SearchFrom(p, s, start + 1)
    else None
  }

  /** `re.search(p, s)`. */
  function Search(p: Pattern, s: string): (r: Option<Match>)
    ensures r.Some? ==> ValidMatch(r.value, s)
  {
    SearchFrom(p, s, 0)
  }

  /** `bool(re.search(p, s))`. */
  predicate Finds(p: Pattern, s: string) { Search(p, s).Some? }

  /**
   * `re.finditer(p, s)` from `start`: successive non-overlapping matches, each searched from
   * where the previous one ended (one character further after an empty match).
   */
  function FindAllFrom(p: Pattern, s: string, start: nat): (ms: seq<Match>)
    requires start <= |s|
    ensures forall k :: 0 <= k < |ms| ==> ValidMatch(ms[k], s) && start <= ms[k].start
    decreases |s| - start
  {
    var m := SearchFrom(p, s, start);
    if m.None? then []
    else
      var next := if m.value.end > m.value.start then m.value.end else m.value.start + 1;
      if next > |s| then [m.value] else [m.value] + FindAllFrom(p, s, next)
  }

  function FindAll(p: Pattern, s: string): (ms: seq<Match>)
    ensures forall k :: 0 <= k < |ms| ==> ValidMatch(ms[k], s)
  {
    FindAllFrom(p, s, 0)
  }

  /** `m.group(n)`; a group that did not take part reads as the empty string. */
  function GroupText(m: Match, s: string, n: nat): string
    requires ValidMatch(m, s)
  {
    if n in m.caps then s[m.caps[n].start..m.caps[n].end] else ""
  }

  /** A group's text is a piece of the searched string. */
  lemma GroupTextInfix(m: Match, s: string, n: nat)
    requires ValidMatch(m, s)
    ensures IsInfix(GroupText(m, s, n), s)
  {
    if n in m.caps {
      assert OccursAt(s, GroupText(m, s, n), m.caps[n].start);
    } else {
      assert OccursAt(s, GroupText(m, s, n), 0);
    }
  }

  /** `m.group(0)`: the whole matched text. */
  function MatchText(m: Match, s: string): string
    requires ValidMatch(m, s)
  {
    s[m.start..m.end]
  }

  // ---------------------------------------------------------------- ordered fallbacks

  /** The index of the first pattern in `ps` that finds a match in `s`. */
  function FirstFinding(ps: seq<Pattern>, s: string): (r: Option<nat>)
    ensures r.Some? ==> r.value < |ps| && Finds(ps[r.value], s)
    ensures r.Some? ==> forall k :: 0 <= k < r.value ==> !Finds(ps[k], s)
    ensures r.None? ==> forall k :: 0 <= k < |ps| ==> !Finds(ps[k], s)
    decreases |ps|
  {
    if |ps| == 0 then None
    else if Finds(ps[0], s) then Some(0)
    else
      var r := FirstFinding(ps[1..], s);
      if r.Some? then Some(r.value + 1) else None
  }

  /**
   * The common "try each pattern in order, the first match wins" idiom:
   * group `n` of the first pattern that matches, or None.
   */
  function FirstGroup(ps: seq<Pattern>, s: string, n: nat): (r: Option<string>)
    ensures r.None? <==> forall k :: 0 <= k < |ps| ==> !Finds(ps[k], s)
    ensures r.Some? ==> exists k :: 0 <= k < |ps| && Finds(ps[k], s) && (forall j :: 0 <= j < k ==> !Finds(ps[j], s))
                                      && r.value == GroupText(Search(ps[k], s).value, s, n)
  {
    var k := FirstFinding(ps, s);
    if k.None? then None else Some(GroupText(Search(ps[k.value], s).value, s, n))
  }

  lemma {:induction false} FirstFindingIs(ps: seq<Pattern>, s: string, k: nat)
    requires k < |ps| && Finds(ps[k], s)
    requires forall j :: 0 <= j < k ==> !Finds(ps[j], s)
    ensures FirstFinding(ps, s) == Some(k)
    decreases k
  {
    if k > 0 {
      assert !Finds(ps[0], s);
      FirstFindingIs(ps[1..], s, k - 1);
      assert FirstFinding(ps[1..], s) == Some(k - 1);
    }
  }

  /**
   * The loop `for pattern in patterns: m = re.search(pattern, s); if m: value = m.group(n); break`:
   * it computes `FirstGroup`.
   */
  method SearchInOrder(ps: seq<Pattern>, s: string, n: nat) returns (r: Option<string>)
    ensures r == FirstGroup(ps, s, n)
  {
    var k := 0;
    while k < |ps|
      invariant k <= |ps|
      invariant forall j :: 0 <= j < k ==> !Finds(ps[j], s)
    {
      var m := Search(ps[k], s);
      if m.Some? {
        FirstFindingIs(ps, s, k);
        return Some(GroupText(m.value, s, n));
      }
      k := k + 1;
    }
    return None;
  }

  // ---------------------------------------------------------------- what a capture holds

  /** Every item that sets group `n` captures at least `lo` characters of class `k`. */
  predicate ItemCapturesClass(it: Item, n: nat, k: CharClass, lo: nat)
  {
    match it
    case Cap(m, k', lo', _, _) => m == n ==> k' == k && lo' >= lo
    case Group(m, body) => m != n && AllCaptureClass(body, n, k, lo)
    case Close(m) => m != n
    case Seq(body) => AllCaptureClass(body, n, k, lo)
    case Alt(alts) => AllCaptureClass(alts, n, k, lo)
    case _ => true
  }

  predicate AllCaptureClass(items: seq<Item>, n: nat, k: CharClass, lo: nat)
  {
    forall j :: 0 <= j < |items| ==> ItemCapturesClass(items[j], n, k, lo)
  }

  /** Group `n`, if set, spans at least `lo` characters of class `k`. */
  predicate SpanInClass(caps: Caps, s: string, n: nat, k: CharClass, lo: nat, ci: bool)
  {
    n in caps ==>
      caps[n].start + lo <= caps[n].end <= |s| && forall j :: caps[n].start <= j < caps[n].end ==> InClass(s[j], k, ci)
  }

  lemma AllCaptureClassCons(x: Item, rest: seq<Item>, n: nat, k: CharClass, lo: nat)
    requires ItemCapturesClass(x, n, k, lo) && AllCaptureClass(rest, n, k, lo)
    ensures AllCaptureClass([x] + rest, n, k, lo)
  {
    assert forall j :: 0 < j < |[x] + rest| ==> ([x] + rest)[j] == rest[j - 1];
  }

  lemma AllCaptureClassAppend(a: seq<Item>, b: seq<Item>, n: nat, k: CharClass, lo: nat)
    requires AllCaptureClass(a, n, k, lo) && AllCaptureClass(b, n, k, lo)
    ensures AllCaptureClass(a + b, n, k, lo)
  {
    assert forall j :: 0 <= j < |a + b| ==> (a + b)[j] == (if j < |a| then a[j] else b[j - |a|]);
  }

  /** Matching only ever sets group `n` through a capture of class `k`. */
  lemma {:induction false} MatchItemsSpan(p: Pattern, items: seq<Item>, s: string, i: nat, caps: Caps, n: nat, k: CharClass, lo: nat)
    requires i <= |s| && CapsBelow(caps, i)
    requires AllCaptureClass(items, n, k, lo) && SpanInClass(caps, s, n, k, lo, p.ignoreCase)
    ensures var r := MatchItems(p, items, s, i, caps); r.Some? ==> SpanInClass(r.value.caps, s, n, k, lo, p.ignoreCase)
    decreases SizeOf(items), 1
  {
    if |items| > 0 {
      assert SizeOf(items) == Size(items[0]) + SizeOf(items[1..]);
      assert ItemCapturesClass(items[0], n, k, lo);
      if items[0].Rep? || items[0].Cap? {
        RepSpan(p, items, s, i, caps, n, k, lo);
      } else if items[0].Group? || items[0].Seq? || items[0].Alt? {
        NestedSpan(p, items, s, i, caps, n, k, lo);
      } else {
        SimpleSpan(p, items, s, i, caps, n, k, lo);
      }
    }
  }

  lemma {:induction false} SimpleSpan(p: Pattern, items: seq<Item>, s: string, i: nat, caps: Caps, n: nat, k: CharClass, lo: nat)
    requires i <= |s| && CapsBelow(caps, i) && |items| > 0
    requires !(items[0].Rep? || items[0].Cap? || items[0].Group? || items[0].Seq? || items[0].Alt?)
    requires AllCaptureClass(items, n, k, lo) && SpanInClass(caps, s, n, k, lo, p.ignoreCase)
    ensures var r := MatchItems(p, items, s, i, caps); r.Some? ==> SpanInClass(r.value.caps, s, n, k, lo, p.ignoreCase)
    decreases SizeOf(items), 0
  {
    var rest := items[1..];
    assert SizeOf(items) == Size(items[0]) + SizeOf(rest);
    assert ItemCapturesClass(items[0], n, k, lo);
    assert AllCaptureClass(rest, n, k, lo);
    match items[0]
    case Lit(t) =>
      if LitAt(s, i, t, p.ignoreCase) { MatchItemsSpan(p, rest, s, i + |t|, caps, n, k, lo); }
    case Close(m) =>
      if m in caps { MatchItemsSpan(p, rest, s, i, caps[m := Span(caps[m].start, i)], n, k, lo); }
    case Ahead(alts) =>
      MatchItemsSpan(p, rest, s, i, caps, n, k, lo);
    case LineEnd =>
      MatchItemsSpan(p, rest, s, i, caps, n, k, lo);
    case Boundary =>
      MatchItemsSpan(p, rest, s, i, caps, n, k, lo);
  }

  lemma {:induction false} RepSpan(p: Pattern, items: seq<Item>, s: string, i: nat, caps: Caps, n: nat, k: CharClass, lo: nat)
    requires i <= |s| && CapsBelow(caps, i) && |items| > 0 && (items[0].Rep? || items[0].Cap?)
    requires AllCaptureClass(items, n, k, lo) && SpanInClass(caps, s, n, k, lo, p.ignoreCase)
    ensures var r := MatchItems(p, items, s, i, caps); r.Some? ==> SpanInClass(r.value.caps, s, n, k, lo, p.ignoreCase)
    decreases SizeOf(items), 0
  {
    var rest := items[1..];
    assert SizeOf(items) == Size(items[0]) + SizeOf(rest);
    assert ItemCapturesClass(items[0], n, k, lo);
    assert AllCaptureClass(rest, n, k, lo);
    match items[0]
    case Rep(c, l, hi, greedy) =>
      var run := Run(s, i, c, p.ignoreCase, hi);
      if run >= l {
        if greedy { TryDownSpan(p, rest, s, i, caps, l, run, None, c, n, k, lo); }
        else { TryUpSpan(p, rest, s, i, caps, l, run, None, c, l, n, k, lo); }
      }
    case Cap(m, c, l, hi, greedy) =>
      var run := Run(s, i, c, p.ignoreCase, hi);
      if run >= l {
        if greedy { TryDownSpan(p, rest, s, i, caps, l, run, Some(m), c, n, k, lo); }
        else { TryUpSpan(p, rest, s, i, caps, l, run, Some(m), c, l, n, k, lo); }
      }
  }

  lemma {:induction false} NestedSpan(p: Pattern, items: seq<Item>, s: string, i: nat, caps: Caps, n: nat, k: CharClass, lo: nat)
    requires i <= |s| && CapsBelow(caps, i) && |items| > 0 && (items[0].Group? || items[0].Seq? || items[0].Alt?)
    requires AllCaptureClass(items, n, k, lo) && SpanInClass(caps, s, n, k, lo, p.ignoreCase)
    ensures var r := MatchItems(p, items, s, i, caps); r.Some? ==> SpanInClass(r.value.caps, s, n, k, lo, p.ignoreCase)
    decreases SizeOf(items), 0
  {
    var rest := items[1..];
    assert SizeOf(items) == Size(items[0]) + SizeOf(rest);
    assert ItemCapturesClass(items[0], n, k, lo);
    assert AllCaptureClass(rest, n, k, lo);
    match items[0]
    case Group(m, body) =>
      SizeOfAppend(body, [Close(m)] + rest);
      AllCaptureClassCons(Close(m), rest, n, k, lo);
      AllCaptureClassAppend(body, [Close(m)] + rest, n, k, lo);
      MatchItemsSpan(p, body + ([Close(m)] + rest), s, i, caps[m := Span(i, i)], n, k, lo);
    case Seq(body) =>
      SizeOfAppend(body, rest);
      AllCaptureClassAppend(body, rest, n, k, lo);
      MatchItemsSpan(p, body + rest, s, i, caps, n, k, lo);
    case Alt(alts) =>
      assert [Alt(alts)] + rest == items;
      AltSpan(p, alts, rest, s, i, caps, n, k, lo);
  }

  lemma {:induction false} AltSpan(p: Pattern, alts: seq<Item>, rest: seq<Item>, s: string, i: nat, caps: Caps, n: nat, k: CharClass, lo: nat)
    requires i <= |s| && CapsBelow(caps, i)
    requires AllCaptureClass(alts, n, k, lo) && AllCaptureClass(rest, n, k, lo) && SpanInClass(caps, s, n, k, lo, p.ignoreCase)
    ensures var r := MatchItems(p, [Alt(alts)] + rest, s, i, caps); r.Some? ==> SpanInClass(r.value.caps, s, n, k, lo, p.ignoreCase)
    decreases SizeOf(alts) + SizeOf(rest), 2
  {
    assert ([Alt(alts)] + rest)[1..] == rest;
    if |alts| > 0 {
      assert SizeOf(alts) == Size(alts[0]) + SizeOf(alts[1..]);
      SizeOfCons(alts[0], rest);
      assert ItemCapturesClass(alts[0], n, k, lo);
      AllCaptureClassCons(alts[0], rest, n, k, lo);
      MatchItemsSpan(p, [alts[0]] + rest, s, i, caps, n, k, lo);
      assert AllCaptureClass(alts[1..], n, k, lo) by {
        assert forall j :: 0 <= j < |alts[1..]| ==> alts[1..][j] == alts[j + 1];
      }
      AltSpan(p, alts[1..], rest, s, i, caps, n, k, lo);
    }
  }

  lemma {:induction false} TryDownSpan(p: Pattern, rest: seq<Item>, s: string, i: nat, caps: Caps, l: nat, cnt: nat, grp: Option<nat>, c: CharClass,
                                       n: nat, k: CharClass, lo: nat)
    requires l <= cnt && i + cnt <= |s| && CapsBelow(caps, i)
    requires AllCaptureClass(rest, n, k, lo) && SpanInClass(caps, s, n, k, lo, p.ignoreCase)
    requires forall j :: i <= j < i + cnt ==> InClass(s[j], c, p.ignoreCase)
    requires grp == Some(n) ==> c == k && l >= lo
    ensures var r := TryDown(p, rest, s, i, caps, l, cnt, grp); r.Some? ==> SpanInClass(r.value.caps, s, n, k, lo, p.ignoreCase)
    decreases SizeOf(rest) + 1, cnt
  {
    var caps' := if grp.Some? then caps[grp.value := Span(i, i + cnt)] else caps;
    MatchItemsSpan(p, rest, s, i + cnt, caps', n, k, lo);
    if cnt > l {
      TryDownSpan(p, rest, s, i, caps, l, cnt - 1, grp, c, n, k, lo);
    }
  }

  lemma {:induction false} TryUpSpan(p: Pattern, rest: seq<Item>, s: string, i: nat, caps: Caps, cnt: nat, run: nat, grp: Option<nat>, c: CharClass,
                                     l: nat, n: nat, k: CharClass, lo: nat)
    requires l <= cnt <= run && i + run <= |s| && CapsBelow(caps, i)
    requires AllCaptureClass(rest, n, k, lo) && SpanInClass(caps, s, n, k, lo, p.ignoreCase)
    requires forall j :: i <= j < i + run ==> InClass(s[j], c, p.ignoreCase)
    requires grp == Some(n) ==> c == k && l >= lo
    ensures var r := TryUp(p, rest, s, i, caps, cnt, run, grp); r.Some? ==> SpanInClass(r.value.caps, s, n, k, lo, p.ignoreCase)
    decreases SizeOf(rest) + 1, run - cnt
  {
    var caps' := if grp.Some? then caps[grp.value := Span(i, i + cnt)] else caps;
    MatchItemsSpan(p, rest, s, i + cnt, caps', n, k, lo);
    if cnt < run {
      TryUpSpan(p, rest, s, i, caps, cnt + 1, run, grp, c, l, n, k, lo);
    }
  }

  // ---------------------------------------------------------------- groups once set stay set

  /** Matching never unsets a group: every group set before is set in the result. */
  lemma {:induction false} MatchItemsKeys(p: Pattern, items: seq<Item>, s: string, i: nat, caps: Caps)
    requires i <= |s| && CapsBelow(caps, i)
    ensures var r := MatchItems(p, items, s, i, caps); r.Some? ==> caps.Keys <= r.value.caps.Keys
    decreases SizeOf(items), 1
  {
    if |items| > 0 {
      assert SizeOf(items) == Size(items[0]) + SizeOf(items[1..]);
      if items[0].Rep? || items[0].Cap? {
        RepKeys(p, items, s, i, caps);
      } else if items[0].Group? || items[0].Seq? || items[0].Alt? {
        NestedKeys(p, items, s, i, caps);
      } else {
        SimpleKeys(p, items, s, i, caps);
      }
    }
  }

  lemma {:induction false} SimpleKeys(p: Pattern, items: seq<Item>, s: string, i: nat, caps: Caps)
    requires i <= |s| && CapsBelow(caps, i) && |items| > 0
    requires !(items[0].Rep? || items[0].Cap? || items[0].Group? || items[0].Seq? || items[0].Alt?)
    ensures var r := MatchItems(p, items, s, i, caps); r.Some? ==> caps.Keys <= r.value.caps.Keys
    decreases SizeOf(items), 0
  {
    var rest := items[1..];
    assert SizeOf(items) == Size(items[0]) + SizeOf(rest);
    match items[0]
    case Lit(t) =>
      if LitAt(s, i, t, p.ignoreCase) { MatchItemsKeys(p, rest, s, i + |t|, caps); }
    case Close(m) =>
      if m in caps { MatchItemsKeys(p, rest, s, i, caps[m := Span(caps[m].start, i)]); }
    case Ahead(alts) =>
      MatchItemsKeys(p, rest, s, i, caps);
    case LineEnd =>
      MatchItemsKeys(p, rest, s, i, caps);
    case Boundary =>
      MatchItemsKeys(p, rest, s, i, caps);
  }

  lemma {:induction false} RepKeys(p: Pattern, items: seq<Item>, s: string, i: nat, caps: Caps)
    requires i <= |s| && CapsBelow(caps, i) && |items| > 0 && (items[0].Rep? || items[0].Cap?)
    ensures var r := MatchItems(p, items, s, i, caps); r.Some? ==> caps.Keys <= r.value.caps.Keys
    decreases SizeOf(items), 0
  {
    var rest := items[1..];
    assert SizeOf(items) == Size(items[0]) + SizeOf(rest);
    match items[0]
    case Rep(c, l, hi, greedy) =>
      var run := Run(s, i, c, p.ignoreCase, hi);
      if run >= l {
        if greedy { TryDownKeys(p, rest, s, i, caps, l, run, None); }
        else { TryUpKeys(p, rest, s, i, caps, l, run, None); }
      }
    case Cap(m, c, l, hi, greedy) =>
      var run := Run(s, i, c, p.ignoreCase, hi);
      if run >= l {
        if greedy { TryDownKeys(p, rest, s, i, caps, l, run, Some(m)); }
        else { TryUpKeys(p, rest, s, i, caps, l, run, Some(m)); }
      }
  }

  lemma {:induction false} NestedKeys(p: Pattern, items: seq<Item>, s: string, i: nat, caps: Caps)
    requires i <= |s| && CapsBelow(caps, i) && |items| > 0 && (items[0].Group? || items[0].Seq? || items[0].Alt?)
    ensures var r := MatchItems(p, items, s, i, caps); r.Some? ==> caps.Keys <= r.value.caps.Keys
    decreases SizeOf(items), 0
  {
    var rest := items[1..];
    assert SizeOf(items) == Size(items[0]) + SizeOf(rest);
    match items[0]
    case Group(m, body) =>
      SizeOfAppend(body, [Close(m)] + rest);
      MatchItemsKeys(p, body + ([Close(m)] + rest), s, i, caps[m := Span(i, i)]);
    case Seq(body) =>
      SizeOfAppend(body, rest);
      MatchItemsKeys(p, body + rest, s, i, caps);
    case Alt(alts) =>
      assert [Alt(alts)] + rest == items;
      AltKeys(p, alts, rest, s, i, caps);
  }

  lemma {:induction false} AltKeys(p: Pattern, alts: seq<Item>, rest: seq<Item>, s: string, i: nat, caps: Caps)
    requires i <= |s| && CapsBelow(caps, i)
    ensures var r := MatchItems(p, [Alt(alts)] + rest, s, i, caps); r.Some? ==> caps.Keys <= r.value.caps.Keys
    decreases SizeOf(alts) + SizeOf(rest), 2
  {
    assert ([Alt(alts)] + rest)[1..] == rest;
    if |alts| > 0 {
      assert SizeOf(alts) == Size(alts[0]) + SizeOf(alts[1..]);
      SizeOfCons(alts[0], rest);
      MatchItemsKeys(p, [alts[0]] + rest, s, i, caps);
      AltKeys(p, alts[1..], rest, s, i, caps);
    }
  }

  lemma {:induction false} TryDownKeys(p: Pattern, rest: seq<Item>, s: string, i: nat, caps: Caps, l: nat, cnt: nat, grp: Option<nat>)
    requires l <= cnt && i + cnt <= |s| && CapsBelow(caps, i)
    ensures var r := TryDown(p, rest, s, i, caps, l, cnt, grp);
            r.Some? ==> caps.Keys <= r.value.caps.Keys && (grp.Some? ==> grp.value in r.value.caps)
    decreases SizeOf(rest) + 1, cnt
  {
    var caps' := if grp.Some? then caps[grp.value := Span(i, i + cnt)] else caps;
    MatchItemsKeys(p, rest, s, i + cnt, caps');
    if cnt > l {
      TryDownKeys(p, rest, s, i, caps, l, cnt - 1, grp);
    }
  }

  lemma {:induction false} TryUpKeys(p: Pattern, rest: seq<Item>, s: string, i: nat, caps: Caps, cnt: nat, run: nat, grp: Option<nat>)
    requires cnt <= run && i + run <= |s| && CapsBelow(caps, i)
    ensures var r := TryUp(p, rest, s, i, caps, cnt, run, grp);
            r.Some? ==> caps.Keys <= r.value.caps.Keys && (grp.Some? ==> grp.value in r.value.caps)
    decreases SizeOf(rest) + 1, run - cnt
  {
    var caps' := if grp.Some? then caps[grp.value := Span(i, i + cnt)] else caps;
    MatchItemsKeys(p, rest, s, i + cnt, caps');
    if cnt < run {
      TryUpKeys(p, rest, s, i, caps, cnt + 1, run, grp);
    }
  }

  /**
   * `items` reach a top-level capture of group `n` through literals, repetitions, other
   * captures, lookaheads and anchors only.
   */
  predicate SetsGroup(items: seq<Item>, n: nat)
    decreases |items|
  {
    |items| > 0 &&
      ((items[0].Cap? && items[0].n == n) ||
       ((items[0].Lit? || items[0].Rep? || items[0].Cap? || items[0].Ahead? || items[0].LineEnd? || items[0].Boundary?) &&
        SetsGroup(items[1..], n)))
  }

  /** Such items set group `n` in every way they match. */
  lemma {:induction false} SetsGroupSet(p: Pattern, items: seq<Item>, s: string, i: nat, caps: Caps, n: nat)
    requires i <= |s| && CapsBelow(caps, i) && SetsGroup(items, n)
    ensures var r := MatchItems(p, items, s, i, caps); r.Some? ==> n in r.value.caps
    decreases SizeOf(items), 0
  {
    var rest := items[1..];
    assert SizeOf(items) == Size(items[0]) + SizeOf(rest);
    match items[0]
    case Cap(m, c, l, hi, greedy) =>
      var run := Run(s, i, c, p.ignoreCase, hi);
      if run >= l {
        if m == n {
          if greedy { TryDownKeys(p, rest, s, i, caps, l, run, Some(m)); }
          else { TryUpKeys(p, rest, s, i, caps, l, run, Some(m)); }
        } else {
          if greedy { TryDownSets(p, rest, s, i, caps, l, run, Some(m), n); }
          else { TryUpSets(p, rest, s, i, caps, l, run, Some(m), n); }
        }
      }
    case Rep(c, l, hi, greedy) =>
      var run := Run(s, i, c, p.ignoreCase, hi);
      if run >= l {
        if greedy { TryDownSets(p, rest, s, i, caps, l, run, None, n); }
        else { TryUpSets(p, rest, s, i, caps, l, run, None, n); }
      }
    case Lit(t) =>
      if LitAt(s, i, t, p.ignoreCase) { SetsGroupSet(p, rest, s, i + |t|, caps, n); }
    case Ahead(alts) =>
      SetsGroupSet(p, rest, s, i, caps, n);
    case LineEnd =>
      SetsGroupSet(p, rest, s, i, caps, n);
    case Boundary =>
      SetsGroupSet(p, rest, s, i, caps, n);
  }

  lemma {:induction false} TryDownSets(p: Pattern, rest: seq<Item>, s: string, i: nat, caps: Caps, l: nat, cnt: nat, grp: Option<nat>, n: nat)
    requires l <= cnt && i + cnt <= |s| && CapsBelow(caps, i) && SetsGroup(rest, n)
    ensures var r := TryDown(p, rest, s, i, caps, l, cnt, grp); r.Some? ==> n in r.value.caps
    decreases SizeOf(rest) + 1, cnt
  {
    var caps' := if grp.Some? then caps[grp.value := Span(i, i + cnt)] else caps;
    SetsGroupSet(p, rest, s, i + cnt, caps', n);
    if cnt > l {
      TryDownSets(p, rest, s, i, caps, l, cnt - 1, grp, n);
    }
  }

  lemma {:induction false} TryUpSets(p: Pattern, rest: seq<Item>, s: string, i: nat, caps: Caps, cnt: nat, run: nat, grp: Option<nat>, n: nat)
    requires cnt <= run && i + run <= |s| && CapsBelow(caps, i) && SetsGroup(rest, n)
    ensures var r := TryUp(p, rest, s, i, caps, cnt, run, grp); r.Some? ==> n in r.value.caps
    decreases SizeOf(rest) + 1, run - cnt
  {
    var caps' := if grp.Some? then caps[grp.value := Span(i, i + cnt)] else caps;
    SetsGroupSet(p, rest, s, i + cnt, caps', n);
    if cnt < run {
      TryUpSets(p, rest, s, i, caps, cnt + 1, run, grp, n);
    }
  }

  /** The match `re.search` finds has such a group set. */
  lemma SearchSetsGroup(p: Pattern, s: string, n: nat)
    requires SetsGroup(p.items, n) && Finds(p, s)
    ensures n in Search(p, s).value.caps
  {
    var m := Search(p, s).value;
    SetsGroupSet(p, p.items, s, m.start, map[], n);
  }

  /** Each of `ms` is the match `re.match` finds at its start. */
  predicate MatchesAtStarts(p: Pattern, s: string, ms: seq<Match>)
  {
    forall j :: 0 <= j < |ms| ==> ms[j].start <= |s| && MatchFrom(p, s, ms[j].start) == Some(ms[j])
  }

  lemma MatchesAtStartsCons(p: Pattern, s: string, m: Match, rest: seq<Match>)
    requires m.start <= |s| && MatchFrom(p, s, m.start) == Some(m)
    requires MatchesAtStarts(p, s, rest)
    ensures MatchesAtStarts(p, s, [m] + rest)
  {
    forall j | 0 <= j < 1 + |rest|
      ensures ([m] + rest)[j].start <= |s| && MatchFrom(p, s, ([m] + rest)[j].start) == Some(([m] + rest)[j])
    {
      if j > 0 {
        assert ([m] + rest)[j] == rest[j - 1];
      }
    }
  }

  /** Every match `finditer` yields is the match `re.match` finds at its start. */
  lemma {:induction false} FindAllFromMatches(p: Pattern, s: string, start: nat)
    requires start <= |s|
    ensures MatchesAtStarts(p, s, FindAllFrom(p, s, start))
    decreases |s| - start
  {
    var m := SearchFrom(p, s, start);
    if m.Some? {
      var next := if m.value.end > m.value.start then m.value.end else m.value.start + 1;
      if next <= |s| {
        FindAllFromMatches(p, s, next);
        MatchesAtStartsCons(p, s, m.value, FindAllFrom(p, s, next));
      } else {
        MatchesAtStartsCons(p, s, m.value, []);
      }
    }
  }

  /** `re.finditer` yields its matches in text order: each starts after the one before. */
  lemma {:induction false} FindAllFromOrdered(p: Pattern, s: string, start: nat)
    requires start <= |s|
    ensures forall i, j :: 0 <= i < j < |FindAllFrom(p, s, start)| ==> FindAllFrom(p, s, start)[i].start < FindAllFrom(p, s, start)[j].start
    decreases |s| - start
  {
    var m := SearchFrom(p, s, start);
    if m.Some? {
      var next := if m.value.end > m.value.start then m.value.end else m.value.start + 1;
      if next <= |s| {
        FindAllFromOrdered(p, s, next);
        var rest := FindAllFrom(p, s, next);
        var ms := FindAllFrom(p, s, start);
        assert ms == [m.value] + rest;
        assert next > m.value.start;
        forall i, j | 0 <= i < j < |ms| ensures ms[i].start < ms[j].start {
          assert ms[j] == rest[j - 1];
          assert next <= rest[j - 1].start;
          if i > 0 {
            assert ms[i] == rest[i - 1];
          } else {
            assert ms[i] == m.value;
          }
        }
      }
    }
  }

  /** A pattern that opens with a capture of group `n` sets that group in every match. */
  lemma LeadingCaptureSet(p: Pattern, s: string, m: Match)
    requires |p.items| > 0 && p.items[0].Cap?
    requires m.start <= |s| && MatchFrom(p, s, m.start) == Some(m)
    ensures p.items[0].n in m.caps
  {
    var it := p.items[0];
    var run := Run(s, m.start, it.cls, p.ignoreCase, it.hi);
    assert SizeOf(p.items) == Size(p.items[0]) + SizeOf(p.items[1..]);
    if it.greedy {
      TryDownKeys(p, p.items[1..], s, m.start, map[], it.lo, run, Some(it.n));
    } else {
      TryUpKeys(p, p.items[1..], s, m.start, map[], it.lo, run, Some(it.n));
    }
  }

  /**
   * In a pattern that sets group `n` only through a capture of class `k` repeated at least
   * `lo` times, the group's text of any match is at least `lo` characters of that class.
   */
  lemma CapturedText(p: Pattern, s: string, m: Match, n: nat, k: CharClass, lo: nat)
    requires AllCaptureClass(p.items, n, k, lo)
    requires m.start <= |s| && MatchFrom(p, s, m.start) == Some(m)
    requires n in m.caps
    ensures ValidMatch(m, s)
    ensures |GroupText(m, s, n)| >= lo
    ensures forall j :: 0 <= j < |GroupText(m, s, n)| ==> InClass(GroupText(m, s, n)[j], k, p.ignoreCase)
  {
    MatchItemsSpan(p, p.items, s, m.start, map[], n, k, lo);
    var g := GroupText(m, s, n);
    forall j | 0 <= j < |g| ensures InClass(g[j], k, p.ignoreCase) {
      assert g[j] == s[m.caps[n].start + j];
    }
  }

  /** The same for the match `re.search` finds. */
  lemma SearchCapturedText(p: Pattern, s: string, n: nat, k: CharClass, lo: nat)
    requires AllCaptureClass(p.items, n, k, lo)
    requires Finds(p, s) && n in Search(p, s).value.caps
    ensures |GroupText(Search(p, s).value, s, n)| >= lo
    ensures forall j :: 0 <= j < |GroupText(Search(p, s).value, s, n)| ==> InClass(GroupText(Search(p, s).value, s, n)[j], k, p.ignoreCase)
  {
    CapturedText(p, s, Search(p, s).value, n, k, lo);
  }

  /**
   * For a pattern that opens with a capture of group `n` of class `k` at least `lo` long and
   * sets `n` nowhere else, every match of `finditer` has that group, of that class.
   */
  lemma FindAllLeadingCapture(p: Pattern, s: string, n: nat, k: CharClass, lo: nat)
    requires |p.items| > 0 && p.items[0].Cap? && p.items[0].n == n
    requires AllCaptureClass(p.items, n, k, lo)
    ensures var ms := FindAll(p, s);
            forall j :: 0 <= j < |ms| ==> (|GroupText(ms[j], s, n)| >= lo &&
              forall i :: 0 <= i < |GroupText(ms[j], s, n)| ==> InClass(GroupText(ms[j], s, n)[i], k, p.ignoreCase))
  {
    var ms := FindAll(p, s);
    FindAllFromMatches(p, s, 0);
    forall j | 0 <= j < |ms|
      ensures |GroupText(ms[j], s, n)| >= lo &&
              forall i :: 0 <= i < |GroupText(ms[j], s, n)| ==> InClass(GroupText(ms[j], s, n)[i], k, p.ignoreCase)
    {
      LeadingCaptureSet(p, s, ms[j]);
      CapturedText(p, s, ms[j], n, k, lo);
    }
  }
}
