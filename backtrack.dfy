/**
 * What backtracking guarantees about the matcher: a match depends on the pattern's flags and
 * not on the rest of the pattern it was written in, a greedy repetition succeeds whenever any
 * admissible count lets the rest match, and so a gap `\s*\n\s*` after plain items can always be
 * read by one `\s*` instead.
 */
module Backtrack {
  import opened Common
  import opened Text
  import opened Regex

  // ---------------------------------------------------------------- only the flags matter

  /** Two patterns with the same flags match the same items the same way. */
  lemma {:induction false} MatchItemsFlags(p: Pattern, q: Pattern, items: seq<Item>, s: string, i: nat, caps: Caps)
    requires p.ignoreCase == q.ignoreCase && p.multiline == q.multiline
    requires i <= |s| && CapsBelow(caps, i)
    ensures MatchItems(p, items, s, i, caps) == MatchItems(q, items, s, i, caps)
    decreases SizeOf(items), 1
  {
    if |items| > 0 {
      assert SizeOf(items) == Size(items[0]) + SizeOf(items[1..]);
      if items[0].Rep? || items[0].Cap? {
        RepFlags(p, q, items, s, i, caps);
      } else if items[0].Group? || items[0].Seq? || items[0].Alt? {
        NestedFlags(p, q, items, s, i, caps);
      } else {
        SimpleFlags(p, q, items, s, i, caps);
      }
    }
  }

  lemma {:induction false} SimpleFlags(p: Pattern, q: Pattern, items: seq<Item>, s: string, i: nat, caps: Caps)
    requires p.ignoreCase == q.ignoreCase && p.multiline == q.multiline
    requires i <= |s| && CapsBelow(caps, i) && |items| > 0
    requires !(items[0].Rep? || items[0].Cap? || items[0].Group? || items[0].Seq? || items[0].Alt?)
    ensures MatchItems(p, items, s, i, caps) == MatchItems(q, items, s, i, caps)
    decreases SizeOf(items), 0
  {
    var rest := items[1..];
    assert SizeOf(items) == Size(items[0]) + SizeOf(rest);
    match items[0]
    case Lit(t) =>
      if LitAt(s, i, t, p.ignoreCase) { MatchItemsFlags(p, q, rest, s, i + |t|, caps); }
    case Close(n) =>
      if n in caps { MatchItemsFlags(p, q, rest, s, i, caps[n := Span(caps[n].start, i)]); }
    case Ahead(alts) =>
      AnyAtFlags(p, q, alts, s, i, caps);
      MatchItemsFlags(p, q, rest, s, i, caps);
    case LineEnd =>
      MatchItemsFlags(p, q, rest, s, i, caps);
    case Boundary =>
      MatchItemsFlags(p, q, rest, s, i, caps);
  }

  lemma {:induction false} RepFlags(p: Pattern, q: Pattern, items: seq<Item>, s: string, i: nat, caps: Caps)
    requires p.ignoreCase == q.ignoreCase && p.multiline == q.multiline
    requires i <= |s| && CapsBelow(caps, i) && |items| > 0 && (items[0].Rep? || items[0].Cap?)
    ensures MatchItems(p, items, s, i, caps) == MatchItems(q, items, s, i, caps)
    decreases SizeOf(items), 0
  {
    var rest := items[1..];
    assert SizeOf(items) == Size(items[0]) + SizeOf(rest);
    match items[0]
    case Rep(k, lo, hi, greedy) =>
      var run := Run(s, i, k, p.ignoreCase, hi);
      if run >= lo {
        if greedy { TryDownFlags(p, q, rest, s, i, caps, lo, run, None); }
        else { TryUpFlags(p, q, rest, s, i, caps, lo, run, None); }
      }
    case Cap(n, k, lo, hi, greedy) =>
      var run := Run(s, i, k, p.ignoreCase, hi);
      if run >= lo {
        if greedy { TryDownFlags(p, q, rest, s, i, caps, lo, run, Some(n)); }
        else { TryUpFlags(p, q, rest, s, i, caps, lo, run, Some(n)); }
      }
  }

  lemma {:induction false} NestedFlags(p: Pattern, q: Pattern, items: seq<Item>, s: string, i: nat, caps: Caps)
    requires p.ignoreCase == q.ignoreCase && p.multiline == q.multiline
    requires i <= |s| && CapsBelow(caps, i) && |items| > 0 && (items[0].Group? || items[0].Seq? || items[0].Alt?)
    ensures MatchItems(p, items, s, i, caps) == MatchItems(q, items, s, i, caps)
    decreases SizeOf(items), 0
  {
    var rest := items[1..];
    assert SizeOf(items) == Size(items[0]) + SizeOf(rest);
    match items[0]
    case Group(n, body) =>
      SizeOfAppend(body, [Close(n)] + rest);
      MatchItemsFlags(p, q, body + ([Close(n)] + rest), s, i, caps[n := Span(i, i)]);
    case Seq(body) =>
      SizeOfAppend(body, rest);
      MatchItemsFlags(p, q, body + rest, s, i, caps);
    case Alt(alts) =>
      assert [Alt(alts)] + rest == items;
      AltFlags(p, q, alts, rest, s, i, caps);
  }

  lemma {:induction false} AltFlags(p: Pattern, q: Pattern, alts: seq<Item>, rest: seq<Item>, s: string, i: nat, caps: Caps)
    requires p.ignoreCase == q.ignoreCase && p.multiline == q.multiline
    requires i <= |s| && CapsBelow(caps, i)
    ensures MatchItems(p, [Alt(alts)] + rest, s, i, caps) == MatchItems(q, [Alt(alts)] + rest, s, i, caps)
    decreases SizeOf(alts) + SizeOf(rest), 2
  {
    assert ([Alt(alts)] + rest)[1..] == rest;
    if |alts| > 0 {
      assert SizeOf(alts) == Size(alts[0]) + SizeOf(alts[1..]);
      SizeOfCons(alts[0], rest);
      MatchItemsFlags(p, q, [alts[0]] + rest, s, i, caps);
      AltFlags(p, q, alts[1..], rest, s, i, caps);
    }
  }

  lemma {:induction false} AnyAtFlags(p: Pattern, q: Pattern, alts: seq<Item>, s: string, i: nat, caps: Caps)
    requires p.ignoreCase == q.ignoreCase && p.multiline == q.multiline
    requires i <= |s| && CapsBelow(caps, i)
    ensures AnyAt(p, alts, s, i, caps) == AnyAt(q, alts, s, i, caps)
    decreases SizeOf(alts), 2
  {
    if |alts| > 0 {
      assert SizeOf(alts) == Size(alts[0]) + SizeOf(alts[1..]);
      SizeOfCons(alts[0], []);
      assert [alts[0]] + [] == [alts[0]];
      MatchItemsFlags(p, q, [alts[0]], s, i, caps);
      AnyAtFlags(p, q, alts[1..], s, i, caps);
    }
  }

  lemma {:induction false} TryDownFlags(p: Pattern, q: Pattern, rest: seq<Item>, s: string, i: nat, caps: Caps, lo: nat, cnt: nat, grp: Option<nat>)
    requires p.ignoreCase == q.ignoreCase && p.multiline == q.multiline
    requires lo <= cnt && i + cnt <= |s| && CapsBelow(caps, i)
    ensures TryDown(p, rest, s, i, caps, lo, cnt, grp) == TryDown(q, rest, s, i, caps, lo, cnt, grp)
    decreases SizeOf(rest) + 1, cnt
  {
    var caps' := if grp.Some? then caps[grp.value := Span(i, i + cnt)] else caps;
    MatchItemsFlags(p, q, rest, s, i + cnt, caps');
    if cnt > lo {
      TryDownFlags(p, q, rest, s, i, caps, lo, cnt - 1, grp);
    }
  }

  lemma {:induction false} TryUpFlags(p: Pattern, q: Pattern, rest: seq<Item>, s: string, i: nat, caps: Caps, cnt: nat, run: nat, grp: Option<nat>)
    requires p.ignoreCase == q.ignoreCase && p.multiline == q.multiline
    requires cnt <= run && i + run <= |s| && CapsBelow(caps, i)
    ensures TryUp(p, rest, s, i, caps, cnt, run, grp) == TryUp(q, rest, s, i, caps, cnt, run, grp)
    decreases SizeOf(rest) + 1, run - cnt
  {
    var caps' := if grp.Some? then caps[grp.value := Span(i, i + cnt)] else caps;
    MatchItemsFlags(p, q, rest, s, i + cnt, caps');
    if cnt < run {
      TryUpFlags(p, q, rest, s, i, caps, cnt + 1, run, grp);
    }
  }

  // ---------------------------------------------------------------- greedy repetitions

  /** A greedy repetition without a group succeeds when some count from `lo` to `cnt` lets the rest match. */
  lemma {:induction false} TryDownFinds(p: Pattern, rest: seq<Item>, s: string, i: nat, caps: Caps, lo: nat, cnt: nat, c: nat)
    requires lo <= c <= cnt && i + cnt <= |s| && CapsBelow(caps, i)
    requires MatchItems(p, rest, s, i + c, caps).Some?
    ensures TryDown(p, rest, s, i, caps, lo, cnt, None).Some?
    decreases cnt
  {
    if MatchItems(p, rest, s, i + cnt, caps).None? {
      TryDownFinds(p, rest, s, i, caps, lo, cnt - 1, c);
    }
  }

  /** When a greedy repetition without a group succeeds, the rest matched after some count from `lo` to `cnt`. */
  lemma {:induction false} TryDownCount(p: Pattern, rest: seq<Item>, s: string, i: nat, caps: Caps, lo: nat, cnt: nat) returns (c: nat)
    requires lo <= cnt && i + cnt <= |s| && CapsBelow(caps, i)
    requires TryDown(p, rest, s, i, caps, lo, cnt, None).Some?
    ensures lo <= c <= cnt && MatchItems(p, rest, s, i + c, caps).Some?
    decreases cnt
  {
    if MatchItems(p, rest, s, i + cnt, caps).Some? {
      c := cnt;
    } else {
      c := TryDownCount(p, rest, s, i, caps, lo, cnt - 1);
    }
  }

  /** An unbounded run of spaces reaches at least as far as any stretch of spaces from its start. */
  lemma RunCovers(s: string, i: nat, ci: bool, e: nat)
    requires i <= e <= |s| && forall j :: i <= j < e ==> IsSpace(s[j])
    ensures i + Run(s, i, Space, ci, Unbounded) >= e
  {
  }

  // ---------------------------------------------------------------- widening a gap

  /** A literal first: it must occur here, and the rest matches after it. */
  lemma LitFirst(p: Pattern, t: string, rest: seq<Item>, s: string, i: nat, caps: Caps)
    requires i <= |s| && CapsBelow(caps, i)
    ensures MatchItems(p, [Lit(t)] + rest, s, i, caps) ==
            if LitAt(s, i, t, p.ignoreCase) then MatchItems(p, rest, s, i + |t|, caps) else None
  {
    assert ([Lit(t)] + rest)[0] == Lit(t) && ([Lit(t)] + rest)[1..] == rest;
  }

  /** A greedy repetition first: its run, then counts downwards. */
  lemma RepFirst(p: Pattern, k: CharClass, lo: nat, hi: Bound, rest: seq<Item>, s: string, i: nat, caps: Caps)
    requires i <= |s| && CapsBelow(caps, i)
    ensures var run := Run(s, i, k, p.ignoreCase, hi);
            MatchItems(p, [Rep(k, lo, hi, true)] + rest, s, i, caps) ==
            if run < lo then None else TryDown(p, rest, s, i, caps, lo, run, None)
  {
    assert ([Rep(k, lo, hi, true)] + rest)[0] == Rep(k, lo, hi, true) && ([Rep(k, lo, hi, true)] + rest)[1..] == rest;
  }

  /** Literals and greedy repetitions without groups. */
  predicate Plainly(items: seq<Item>)
  {
    forall j :: 0 <= j < |items| ==> items[j].Lit? || (items[j].Rep? && items[j].greedy)
  }

  /** When a greedy repetition without a group comes first and matches, the rest matched after a run of its class. */
  lemma RepCount(p: Pattern, k: CharClass, lo: nat, hi: Bound, rest: seq<Item>, s: string, i: nat, caps: Caps) returns (c: nat)
    requires i <= |s| && CapsBelow(caps, i)
    requires MatchItems(p, [Rep(k, lo, hi, true)] + rest, s, i, caps).Some?
    ensures lo <= c <= Run(s, i, k, p.ignoreCase, hi) && MatchItems(p, rest, s, i + c, caps).Some?
    ensures forall j :: i <= j < i + c ==> InClass(s[j], k, p.ignoreCase)
  {
    RepFirst(p, k, lo, hi, rest, s, i, caps);
    c := TryDownCount(p, rest, s, i, caps, lo, Run(s, i, k, p.ignoreCase, hi));
  }

  /** `\s*` and then `tail`. */
  function SpaceGap(tail: seq<Item>): seq<Item> { [Ws0] + tail }

  /** `\s*\n\s*` and then `tail`. */
  function NewlineGap(tail: seq<Item>): seq<Item> { [Ws0] + ([Lit("\n")] + ([Ws0] + tail)) }

  /** Where `\s*\n\s*` and then `tail` match, `\s*` and then `tail` match too. */
  lemma GapWidens(p: Pattern, tail: seq<Item>, s: string, i: nat, caps: Caps)
    requires !p.ignoreCase && i <= |s| && CapsBelow(caps, i)
    requires MatchItems(p, NewlineGap(tail), s, i, caps).Some?
    ensures MatchItems(p, SpaceGap(tail), s, i, caps).Some?
  {
    var e := GapEnd(p, tail, s, i, caps);
    RunCovers(s, i, false, e);
    RepFirst(p, Space, 0, Unbounded, tail, s, i, caps);
    TryDownFinds(p, tail, s, i, caps, 0, Run(s, i, Space, false, Unbounded), e - i);
  }

  /** When `\s*` comes first and matches, the rest matched after a stretch of spaces. */
  lemma SpacesFirst(p: Pattern, rest: seq<Item>, s: string, i: nat, caps: Caps) returns (j: nat)
    requires i <= |s| && CapsBelow(caps, i)
    requires MatchItems(p, [Ws0] + rest, s, i, caps).Some?
    ensures i <= j <= |s| && MatchItems(p, rest, s, j, caps).Some?
    ensures forall k :: i <= k < j ==> IsSpace(s[k])
  {
    var c := RepCount(p, Space, 0, Unbounded, rest, s, i, caps);
    j := i + c;
  }

  /** Where `\s*\n\s*` and then `tail` match, `tail` matches after a stretch of spaces. */
  lemma GapEnd(p: Pattern, tail: seq<Item>, s: string, i: nat, caps: Caps) returns (e: nat)
    requires !p.ignoreCase && i <= |s| && CapsBelow(caps, i)
    requires MatchItems(p, NewlineGap(tail), s, i, caps).Some?
    ensures i <= e <= |s| && MatchItems(p, tail, s, e, caps).Some?
    ensures forall k :: i <= k < e ==> IsSpace(s[k])
  {
    var j := SpacesFirst(p, [Lit("\n")] + ([Ws0] + tail), s, i, caps);
    NewlineFirst(p, [Ws0] + tail, s, j, caps);
    e := SpacesFirst(p, tail, s, j + 1, caps);
  }

  lemma NewlineFirst(p: Pattern, rest: seq<Item>, s: string, i: nat, caps: Caps)
    requires !p.ignoreCase && i <= |s| && CapsBelow(caps, i)
    requires MatchItems(p, [Lit("\n")] + rest, s, i, caps).Some?
    ensures i < |s| && s[i] == '\n' && MatchItems(p, rest, s, i + 1, caps).Some?
  {
    LitFirst(p, "\n", rest, s, i, caps);
    assert CharEq(s[i + 0], "\n"[0], false);
  }

  /** After plain items, a gap `\s*\n\s*` that matches can be read as one `\s*`. */
  lemma {:induction false} PrefixGapWidens(p: Pattern, pre: seq<Item>, tail: seq<Item>, s: string, i: nat, caps: Caps)
    requires !p.ignoreCase && Plainly(pre) && i <= |s| && CapsBelow(caps, i)
    requires MatchItems(p, pre + NewlineGap(tail), s, i, caps).Some?
    ensures MatchItems(p, pre + SpaceGap(tail), s, i, caps).Some?
    decreases |pre|, 1
  {
    if |pre| == 0 {
      assert pre + NewlineGap(tail) == NewlineGap(tail) && pre + SpaceGap(tail) == SpaceGap(tail);
      GapWidens(p, tail, s, i, caps);
    } else {
      assert Plainly(pre[1..]) by {
        forall j | 0 <= j < |pre[1..]| ensures pre[1..][j].Lit? || (pre[1..][j].Rep? && pre[1..][j].greedy) {
          assert pre[1..][j] == pre[j + 1];
        }
      }
      assert pre + NewlineGap(tail) == [pre[0]] + (pre[1..] + NewlineGap(tail));
      assert pre + SpaceGap(tail) == [pre[0]] + (pre[1..] + SpaceGap(tail));
      if pre[0].Lit? {
        LitGapWidens(p, pre[0].text, pre[1..], tail, s, i, caps);
      } else {
        RepGapWidens(p, pre[0].cls, pre[0].lo, pre[0].hi, pre[1..], tail, s, i, caps);
      }
    }
  }

  lemma {:induction false} LitGapWidens(p: Pattern, t: string, pre: seq<Item>, tail: seq<Item>, s: string, i: nat, caps: Caps)
    requires !p.ignoreCase && Plainly(pre) && i <= |s| && CapsBelow(caps, i)
    requires MatchItems(p, [Lit(t)] + (pre + NewlineGap(tail)), s, i, caps).Some?
    ensures MatchItems(p, [Lit(t)] + (pre + SpaceGap(tail)), s, i, caps).Some?
    decreases |pre| + 1, 0
  {
    LitFirst(p, t, pre + NewlineGap(tail), s, i, caps);
    LitFirst(p, t, pre + SpaceGap(tail), s, i, caps);
    PrefixGapWidens(p, pre, tail, s, i + |t|, caps);
  }

  lemma {:induction false} RepGapWidens(p: Pattern, k: CharClass, lo: nat, hi: Bound, pre: seq<Item>, tail: seq<Item>, s: string, i: nat, caps: Caps)
    requires !p.ignoreCase && Plainly(pre) && i <= |s| && CapsBelow(caps, i)
    requires MatchItems(p, [Rep(k, lo, hi, true)] + (pre + NewlineGap(tail)), s, i, caps).Some?
    ensures MatchItems(p, [Rep(k, lo, hi, true)] + (pre + SpaceGap(tail)), s, i, caps).Some?
    decreases |pre| + 1, 0
  {
    var c := RepCount(p, k, lo, hi, pre + NewlineGap(tail), s, i, caps);
    PrefixGapWidens(p, pre, tail, s, i + c, caps);
    RepFirst(p, k, lo, hi, pre + SpaceGap(tail), s, i, caps);
    TryDownFinds(p, pre + SpaceGap(tail), s, i, caps, lo, Run(s, i, k, p.ignoreCase, hi), c);
  }

  /**
   * A pattern that reads `\s*\n\s*` after plain items finds something only where the same
   * pattern with `\s*` in that place finds something too: `\s*` already spans line breaks.
   */
  lemma SearchGapWidens(p: Pattern, q: Pattern, pre: seq<Item>, tail: seq<Item>, s: string)
    requires !p.ignoreCase && !q.ignoreCase && p.multiline == q.multiline && Plainly(pre)
    requires p.items == pre + SpaceGap(tail) && q.items == pre + NewlineGap(tail)
    ensures Finds(q, s) ==> Finds(p, s)
  {
    if Finds(q, s) {
      var m := Search(q, s).value;
      assert MatchFrom(q, s, m.start).Some?;
      MatchItemsFlags(q, p, q.items, s, m.start, map[]);
      PrefixGapWidens(p, pre, tail, s, m.start, map[]);
      assert MatchFrom(p, s, m.start).Some?;
    }
  }
}
