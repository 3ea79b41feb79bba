/**
 * Pattern pieces shared by the ICICI letter extractors (icici.py), and the
 * `match.group(1).strip()` step every ordered pattern list ends with.
 */
module IciciPatterns {
  import opened Common
  import opened Text
  import opened Regex
  import opened IciciText

  /** `\.?` */
  const OptDot: Item := Rep(Chars("."), 0, AtMost(1), true)
  /** `[:#]?` */
  const OptColonHash: Item := Rep(Chars(":#"), 0, AtMost(1), true)
  /** `[\d,]` */
  const DigitComma: CharClass := Union(Digit, Chars(","))
  /** `[0-9-]` */
  const DigitDash: CharClass := Union(Range('0', '9'), Chars("-"))

  /** `match.group(n).strip()` of the first pattern that matches. */
  function Stripped(g: Option<string>): (r: Option<string>)
    ensures r.None? <==> g.None?
    ensures r.Some? ==> IsStripped(r.value) && IsInfix(r.value, g.value)
  {
    if g.Some? then Some(Strip(g.value)) else None
  }

  /** `([^\n]+)`: the rest of the line, as group 1. */
  const RestOfLine: Item := Cap(1, Negate(Chars("\n")), 1, Unbounded, true)

  // ---------------------------------------------------------------- query and denial letters

  const LetterNamePatterns: seq<Pattern> := [
    CI([Lit("Claim"), Ws1, Lit("of"), Ws0, OptColon, Ws0, RestOfLine]),
    CI([Lit("Claim"), Ws1, Lit("of"), Ws1, RestOfLine]),
    CI(PhraseItems(["Name", "of", "the", "Patient"]) + [Ws0, Lit(":"), Ws0, RestOfLine]),
    CI(PhraseItems(["Patient", "Name"]) + [Ws0, Lit(":"), Ws0, RestOfLine])
  ]

  const LetterUhidPatterns: seq<Pattern> := [
    CI([Lit("UHID"), Ws0, OptColon, Ws0, RestOfLine]),
    CI([Lit("UHID"), Ws1, RestOfLine]),
    CI([Lit("UHID"), Ws0, Lit("Number"), Ws0, Lit(":"), Ws0, RestOfLine])
  ]

  const LetterPolicyPatterns: seq<Pattern> := [
    CI([Lit("Policy"), Ws0, Lit("Number"), Ws0, OptColon, Ws0, RestOfLine]),
    CI([Lit("Policy"), Ws0, Lit("No"), Ws0, OptColon, Ws0, RestOfLine]),
    CI([Lit("Policy"), Ws0, Lit("Number"), Ws1, RestOfLine])
  ]

  const LetterAlPatterns: seq<Pattern> := [
    CI([Lit("AL"), Ws0, Lit("Number"), Ws0, OptColon, Ws0, RestOfLine]),
    CI([Lit("AL"), Ws0, Lit("No"), Ws0, OptColon, Ws0, RestOfLine]),
    CI([Lit("AL"), Ws0, Lit("Number"), Ws1, RestOfLine])
  ]

  /** Every pattern of the list captures group 1 as `[^\n]+`. */
  predicate LineCaptures(ps: seq<Pattern>)
  {
    forall k :: 0 <= k < |ps| ==> AllCaptureClass(ps[k].items, 1, Negate(Chars("\n")), 1)
  }

  lemma LetterPatternsCaptureLines()
    ensures LineCaptures(LetterNamePatterns) && LineCaptures(LetterUhidPatterns)
    ensures LineCaptures(LetterPolicyPatterns) && LineCaptures(LetterAlPatterns)
  {
    PhraseCaptures(["Name", "of", "the", "Patient"]);
    PhraseCaptures(["Patient", "Name"]);
    var tail := [Ws0, Lit(":"), Ws0, RestOfLine];
    AllCaptureClassAppend(PhraseItems(["Name", "of", "the", "Patient"]), tail, 1, Negate(Chars("\n")), 1);
    AllCaptureClassAppend(PhraseItems(["Patient", "Name"]), tail, 1, Negate(Chars("\n")), 1);
  }

  /** A phrase sets no group. */
  lemma {:induction false} PhraseCaptures(words: seq<string>)
    ensures AllCaptureClass(PhraseItems(words), 1, Negate(Chars("\n")), 1)
    decreases |words|
  {
    if |words| > 1 {
      PhraseCaptures(words[1..]);
      AllCaptureClassAppend([Lit(words[0]), Rep(Space, 1, Unbounded, true)], PhraseItems(words[1..]), 1, Negate(Chars("\n")), 1);
    }
  }

  /** `[^\n]` excludes the newline, whatever the case folding. */
  lemma NotNewlineClass(c: char, ci: bool)
    requires InClass(c, Negate(Chars("\n")), ci)
    ensures c != '\n'
  {
  }

  /** A string none of whose characters is a newline does not contain "\n". */
  lemma NoNewline(g: string)
    requires forall j :: 0 <= j < |g| ==> g[j] != '\n'
    ensures !Contains(g, "\n")
  {
    assert forall a: nat :: OccursAt(g, "\n", a) ==> g[a] == '\n';
  }

  /** The text a `[^\n]+` capture group holds is one line. */
  lemma CapturedLine(p: Pattern, s: string, m: Match)
    requires AllCaptureClass(p.items, 1, Negate(Chars("\n")), 1)
    requires Search(p, s) == Some(m)
    ensures !Contains(GroupText(m, s, 1), "\n")
  {
    var g := GroupText(m, s, 1);
    if 1 in m.caps {
      SearchCapturedText(p, s, 1, Negate(Chars("\n")), 1);
      forall j | 0 <= j < |g| ensures g[j] != '\n' {
        NotNewlineClass(g[j], p.ignoreCase);
      }
    }
    NoNewline(g);
  }

  /** Group 1 of the first pattern of such a list that matches lies within one line. */
  lemma FirstGroupOneLine(ps: seq<Pattern>, s: string)
    requires LineCaptures(ps)
    requires FirstGroup(ps, s, 1).Some?
    ensures !Contains(FirstGroup(ps, s, 1).value, "\n")
  {
    var k := FirstFinding(ps, s).value;
    var m := Search(ps[k], s).value;
    assert FirstGroup(ps, s, 1).value == GroupText(m, s, 1);
    CapturedLine(ps[k], s, m);
  }

  /**
   * `match.group(1).strip()` of the first pattern of such a list that matches is one line,
   * with no surrounding whitespace.
   */
  lemma StrippedLine(ps: seq<Pattern>, text: string)
    requires LineCaptures(ps)
    ensures var r := Stripped(FirstGroup(ps, text, 1));
            r.Some? ==> IsStripped(r.value) && !Contains(r.value, "\n")
  {
    var g := FirstGroup(ps, text, 1);
    if g.Some? {
      FirstGroupOneLine(ps, text);
      InfixAvoids(Strip(g.value), g.value, "\n");
    }
  }
}
