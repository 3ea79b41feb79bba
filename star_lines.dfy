/**
 * The line-walking machinery shared by the two Star Health letter readers (spam.py and
 * star_query_denied.py): the scan of the first ten lines for the letter-type markers, and
 * the collector that reads labelled fields line by line.
 */
module StarLines {
  import opened Common
  import opened Text

  // ---------------------------------------------------------------- the letter-type markers

  /** `lines[:10]`: how many lines the classifier looks at. */
  function HeadCount(lines: seq<string>): nat { if |lines| < 10 then |lines| else 10 }

  /** The index of the first of `markers` that `line` contains. */
  function MarkerIn(line: string, markers: seq<string>, m: nat): (r: Option<nat>)
    requires m <= |markers|
    ensures r.Some? ==> m <= r.value < |markers| && Contains(line, markers[r.value])
    ensures r.Some? ==> forall q :: m <= q < r.value ==> !Contains(line, markers[q])
    ensures r.None? ==> forall q :: m <= q < |markers| ==> !Contains(line, markers[q])
    decreases |markers| - m
  {
    if m == |markers| then None
    else if Contains(line, markers[m]) then Some(m)
    else MarkerIn(line, markers, m + 1)
  }

  /**
   * `for i, line in enumerate(lines[:10]): if m0 in line: ... break elif m1 in line: ... break`:
   * the first of the first ten lines from `i` on that holds a marker, and the first marker
   * (in the order of the `if`/`elif` chain) that it holds.
   */
  function MarkerLine(lines: seq<string>, markers: seq<string>, i: nat): (r: Option<(nat, nat)>)
    requires i <= HeadCount(lines)
    ensures r.Some? ==> i <= r.value.0 < HeadCount(lines) && MarkerIn(lines[r.value.0], markers, 0) == Some(r.value.1)
    ensures r.Some? ==> forall k :: i <= k < r.value.0 ==> MarkerIn(lines[k], markers, 0).None?
    ensures r.None? ==> forall k :: i <= k < HeadCount(lines) ==> MarkerIn(lines[k], markers, 0).None?
    decreases HeadCount(lines) - i
  {
    if i == HeadCount(lines) then None
    else
      var m := MarkerIn(lines[i], markers, 0);
      if m.Some? then Some((i, m.value)) else MarkerLine(lines, markers, i + 1)
  }

  /** The classifier's verdict, spelled out: the marker line and marker it picks are the first ones. */
  lemma MarkerLineFirst(lines: seq<string>, markers: seq<string>)
    ensures var r := MarkerLine(lines, markers, 0);
            r.Some? ==> r.value.0 < |lines| && r.value.1 < |markers| && Contains(lines[r.value.0], markers[r.value.1]) &&
                        (forall q :: 0 <= q < r.value.1 ==> !Contains(lines[r.value.0], markers[q])) &&
                        (forall k, q :: 0 <= k < r.value.0 && 0 <= q < |markers| ==> !Contains(lines[k], markers[q]))
    ensures MarkerLine(lines, markers, 0).None? <==>
              forall k, q :: 0 <= k < HeadCount(lines) && 0 <= q < |markers| ==> !Contains(lines[k], markers[q])
  {
    var r := MarkerLine(lines, markers, 0);
    if r.Some? {
      var m := MarkerIn(lines[r.value.0], markers, 0);
      assert m == Some(r.value.1);
      forall k, q | 0 <= k < r.value.0 && 0 <= q < |markers| ensures !Contains(lines[k], markers[q]) {
        assert MarkerIn(lines[k], markers, 0).None?;
      }
      assert Contains(lines[r.value.0], markers[r.value.1]);
      assert !forall k, q :: 0 <= k < HeadCount(lines) && 0 <= q < |markers| ==> !Contains(lines[k], markers[q]);
    } else {
      forall k, q | 0 <= k < HeadCount(lines) && 0 <= q < |markers| ensures !Contains(lines[k], markers[q]) {
        assert MarkerIn(lines[k], markers, 0).None?;
      }
    }
  }

  /** None of the first `k` lines holds any of the markers. */
  predicate NoMarkerBefore(lines: seq<string>, markers: seq<string>, k: nat)
  {
    forall j, q :: 0 <= j < k && j < |lines| && 0 <= q < |markers| ==> !Contains(lines[j], markers[q])
  }

  /** Only one line can be both marked and the first marked one. */
  lemma FirstMarkedUnique(lines: seq<string>, markers: seq<string>, k: nat, k': nat, q: nat, q': nat)
    requires k < |lines| && k' < |lines| && q < |markers| && q' < |markers|
    requires NoMarkerBefore(lines, markers, k) && NoMarkerBefore(lines, markers, k')
    requires Contains(lines[k], markers[q]) && Contains(lines[k'], markers[q'])
    ensures k == k'
  {
  }

  /**
   * With two markers tested in order, the first of the first ten lines that holds one
   * decides: the first marker when that line holds it, else the second; with no such line
   * the classifier finds nothing.
   */
  lemma FirstOfTwo(lines: seq<string>, markers: seq<string>)
    requires |markers| == 2
    ensures var r := MarkerLine(lines, markers, 0);
            (r.Some? && r.value.1 == 0 <==>
               exists k :: 0 <= k < HeadCount(lines) && NoMarkerBefore(lines, markers, k) && Contains(lines[k], markers[0])) &&
            (r.Some? && r.value.1 == 1 <==>
               exists k :: 0 <= k < HeadCount(lines) && NoMarkerBefore(lines, markers, k) &&
                           !Contains(lines[k], markers[0]) && Contains(lines[k], markers[1])) &&
            (r.None? <==> NoMarkerBefore(lines, markers, HeadCount(lines)))
  {
    MarkerLineFirst(lines, markers);
    var r := MarkerLine(lines, markers, 0);
    if r.Some? {
      var k := r.value.0;
      assert NoMarkerBefore(lines, markers, k);
      forall k', q' | 0 <= k' < HeadCount(lines) && 0 <= q' < 2 && NoMarkerBefore(lines, markers, k') && Contains(lines[k'], markers[q'])
        ensures k' == k
      {
        FirstMarkedUnique(lines, markers, k, k', r.value.1, q');
      }
      assert !NoMarkerBefore(lines, markers, HeadCount(lines)) by {
        assert Contains(lines[k], markers[r.value.1]);
      }
    }
  }

  /** The `if`/`elif` chain on one line. */
  method FindMarker(line: string, markers: seq<string>) returns (r: Option<nat>)
    ensures r == MarkerIn(line, markers, 0)
  {
    var m := 0;
    while m < |markers|
      invariant m <= |markers|
      invariant MarkerIn(line, markers, m) == MarkerIn(line, markers, 0)
    {
      if Contains(line, markers[m]) {
        return Some(m);
      }
      m := m + 1;
    }
    return None;
  }

  /** The loop over `lines[:10]` with its `break`. */
  method ScanMarkers(lines: seq<string>, markers: seq<string>) returns (r: Option<(nat, nat)>)
    ensures r == MarkerLine(lines, markers, 0)
  {
    var i := 0;
    while i < HeadCount(lines)
      invariant i <= HeadCount(lines)
      invariant MarkerLine(lines, markers, i) == MarkerLine(lines, markers, 0)
    {
      var m := FindMarker(lines[i], markers);
      if m.Some? {
        return Some((i, m.value));
      }
      i := i + 1;
    }
    return None;
  }

  // ---------------------------------------------------------------- marker-bounded capture

  /** The index of the first line from `i` on that satisfies `f`, or `|lines|`. */
  function FirstWith(lines: seq<string>, f: string -> bool, i: nat): (r: nat)
    requires i <= |lines|
    ensures i <= r <= |lines| && (r < |lines| ==> f(lines[r]))
    ensures forall k :: i <= k < r ==> !f(lines[k])
    decreases |lines| - i
  {
    if i == |lines| || f(lines[i]) then i else FirstWith(lines, f, i + 1)
  }

  /**
   * `capture = False; for line in lines: if start(line): capture = True; continue
   * elif stop(line): break elif capture: <keep(line)>`: the entries `keep` yields for the
   * lines read while capturing, from line `i` on.
   */
  function Marked(lines: seq<string>, start: string -> bool, stop: string -> bool, keep: string -> Option<string>,
                  i: nat, capture: bool): seq<string>
    requires i <= |lines|
    decreases |lines| - i
  {
    if i == |lines| then []
    else if start(lines[i]) then Marked(lines, start, stop, keep, i + 1, true)
    else if stop(lines[i]) then []
    else (if capture then Kept(keep(lines[i])) else []) + Marked(lines, start, stop, keep, i + 1, capture)
  }

  /** The loop itself, appending to a list. */
  method ScanMarked(lines: seq<string>, start: string -> bool, stop: string -> bool, keep: string -> Option<string>)
    returns (out: seq<string>)
    ensures out == Marked(lines, start, stop, keep, 0, false)
  {
    out := [];
    var capture := false;
    var i := 0;
    while i < |lines|
      invariant i <= |lines|
      invariant out + Marked(lines, start, stop, keep, i, capture) == Marked(lines, start, stop, keep, 0, false)
    {
      var line := lines[i];
      if start(line) {
        capture := true;
      } else if stop(line) {
        assert Marked(lines, start, stop, keep, i, capture) == [];
        break;
      } else {
        var r := if capture then keep(line) else None;
        assert Marked(lines, start, stop, keep, i, capture) == Kept(r) + Marked(lines, start, stop, keep, i + 1, capture);
        if r.Some? {
          out := out + [r.value];
        }
      }
      i := i + 1;
    }
  }

  /** A line that ends the capture: it stops it and does not start it. */
  function Ends(start: string -> bool, stop: string -> bool): string -> bool
  {
    l => stop(l) && !start(l)
  }

  /** What a captured line contributes: nothing when it starts the capture again. */
  function Captured(start: string -> bool, keep: string -> Option<string>): string -> Option<string>
  {
    l => if start(l) then None else keep(l)
  }

  lemma {:induction false} MarkedInside(lines: seq<string>, start: string -> bool, stop: string -> bool,
                                        keep: string -> Option<string>, i: nat, d: nat)
    requires i <= d <= |lines| && d == FirstWith(lines, Ends(start, stop), i)
    ensures Marked(lines, start, stop, keep, i, true) == KeptUpTo(Captured(start, keep), lines[i..d], d - i)
    decreases d - i
  {
    if i == d {
      if i < |lines| {
        assert Ends(start, stop)(lines[i]);
      }
    } else {
      assert !Ends(start, stop)(lines[i]);
      MarkedInside(lines, start, stop, keep, i + 1, d);
      KeptSlice(Captured(start, keep), lines, i, d);
      var h := Kept(Captured(start, keep)(lines[i]));
      assert Marked(lines, start, stop, keep, i, true) == h + Marked(lines, start, stop, keep, i + 1, true);
    }
  }

  lemma {:induction false} MarkedBefore(lines: seq<string>, start: string -> bool, stop: string -> bool,
                                        keep: string -> Option<string>, i: nat, t: nat, d: nat)
    requires i <= |lines|
    requires t == FirstWith(lines, start, i) && d == FirstWith(lines, Ends(start, stop), i)
    ensures Marked(lines, start, stop, keep, i, false) ==
              if t < d then Marked(lines, start, stop, keep, t + 1, true) else []
    decreases |lines| - i
  {
    if i < |lines| && i != t && i != d {
      assert !start(lines[i]) && !Ends(start, stop)(lines[i]);
      MarkedBefore(lines, start, stop, keep, i + 1, t, d);
    } else if i < |lines| && i == d {
      assert Ends(start, stop)(lines[i]);
    }
  }

  /**
   * The capture spelled out: with `t` the first line that starts it and `d` the first that
   * ends it, the result is what the lines strictly between them yield (lines that start the
   * capture again yield nothing), and nothing at all when the capture never starts before
   * it is ended.
   */
  lemma MarkedBetween(lines: seq<string>, start: string -> bool, stop: string -> bool, keep: string -> Option<string>)
    ensures var t := FirstWith(lines, start, 0);
            var d := FirstWith(lines, Ends(start, stop), 0);
            Marked(lines, start, stop, keep, 0, false) ==
              if t < d then KeptUpTo(Captured(start, keep), lines[t + 1..d], d - t - 1) else []
  {
    var t := FirstWith(lines, start, 0);
    var d := FirstWith(lines, Ends(start, stop), 0);
    MarkedBefore(lines, start, stop, keep, 0, t, d);
    if t < d {
      assert d == FirstWith(lines, Ends(start, stop), t + 1) by {
        FirstWithFrom(lines, Ends(start, stop), 0, t + 1);
      }
      MarkedInside(lines, start, stop, keep, t + 1, d);
    }
  }

  /**
   * One round of the loop below on `line`: whether the loop goes on, what the line adds,
   * and whether the capture is on afterwards.
   */
  function SpanStep(start: string -> bool, stop: string -> bool, opening: string -> string,
                    inner: string -> string, closing: string -> Option<string>, line: string, capture: bool): (bool, seq<string>, bool)
  {
    if start(line) then (true, [opening(line)], true)
    else if stop(line) then (false, Kept(closing(line)), capture)
    else (true, if capture then [inner(line)] else [], capture)
  }

  /**
   * `capture = False; for line in lines: if start(line): capture = True; <add opening(line)>;
   * continue elif stop(line): <add closing(line)>; break elif capture: <add inner(line)>`:
   * a capture whose start lines and end line contribute text of their own. The end line
   * contributes even when no start line came before it.
   */
  function Spanned(lines: seq<string>, start: string -> bool, stop: string -> bool, opening: string -> string,
                   inner: string -> string, closing: string -> Option<string>, i: nat, capture: bool): seq<string>
    requires i <= |lines|
    decreases |lines| - i
  {
    if i == |lines| then []
    else
      var r := SpanStep(start, stop, opening, inner, closing, lines[i], capture);
      r.1 + (if r.0 then Spanned(lines, start, stop, opening, inner, closing, i + 1, r.2) else [])
  }

  method SpanLine(start: string -> bool, stop: string -> bool, opening: string -> string,
                  inner: string -> string, closing: string -> Option<string>, line: string, capture: bool)
    returns (goOn: bool, add: seq<string>, capture': bool)
    ensures (goOn, add, capture') == SpanStep(start, stop, opening, inner, closing, line, capture)
  {
    if start(line) {
      return true, [opening(line)], true;
    } else if stop(line) {
      var r := closing(line);
      return false, if r.Some? then [r.value] else [], capture;
    }
    return true, if capture then [inner(line)] else [], capture;
  }

  lemma ConcatAssoc(a: seq<string>, b: seq<string>, c: seq<string>)
    ensures a + (b + c) == (a + b) + c
  {
  }

  method ScanSpanned(lines: seq<string>, start: string -> bool, stop: string -> bool, opening: string -> string,
                     inner: string -> string, closing: string -> Option<string>) returns (out: seq<string>)
    ensures out == Spanned(lines, start, stop, opening, inner, closing, 0, false)
  {
    out := [];
    var capture := false;
    var i := 0;
    while i < |lines|
      invariant i <= |lines|
      invariant out + Spanned(lines, start, stop, opening, inner, closing, i, capture) ==
                Spanned(lines, start, stop, opening, inner, closing, 0, false)
    {
      var goOn, add, capture' := SpanLine(start, stop, opening, inner, closing, lines[i], capture);
      var rest := if goOn then Spanned(lines, start, stop, opening, inner, closing, i + 1, capture') else [];
      assert Spanned(lines, start, stop, opening, inner, closing, i, capture) == add + rest;
      ConcatAssoc(out, add, rest);
      out := out + add;
      if !goOn {
        break;
      }
      capture := capture';
      i := i + 1;
    }
  }

  /** What a line from the first start line on contributes. */
  function Piece(start: string -> bool, opening: string -> string, inner: string -> string): string -> Option<string>
  {
    l => Some(if start(l) then opening(l) else inner(l))
  }

  /** What the end line at `e`, if there is one, contributes. */
  function Closings(lines: seq<string>, closing: string -> Option<string>, e: nat): seq<string>
    requires e <= |lines|
  {
    if e < |lines| then Kept(closing(lines[e])) else []
  }

  lemma {:induction false} SpannedInside(lines: seq<string>, start: string -> bool, stop: string -> bool, opening: string -> string,
                                         inner: string -> string, closing: string -> Option<string>, i: nat, e: nat)
    requires i <= e <= |lines| && e == FirstWith(lines, Ends(start, stop), i)
    ensures Spanned(lines, start, stop, opening, inner, closing, i, true) ==
              KeptUpTo(Piece(start, opening, inner), lines[i..e], e - i) + Closings(lines, closing, e)
    decreases e - i
  {
    if i == e {
      if i < |lines| {
        SpannedEndInside(lines, start, stop, opening, inner, closing, i);
      }
    } else {
      assert !Ends(start, stop)(lines[i]);
      FirstWithSkip(lines, Ends(start, stop), i);
      SpannedInside(lines, start, stop, opening, inner, closing, i + 1, e);
      var keep := Piece(start, opening, inner);
      KeptSlice(keep, lines, i, e);
      var p := SpannedInner(lines, start, stop, opening, inner, closing, i);
      assert Kept(keep(lines[i])) == [p];
      ConcatAssoc([p], KeptUpTo(keep, lines[i + 1..e], e - i - 1), Closings(lines, closing, e));
    }
  }

  /** Inside the capture, an end line contributes its closing text and ends the loop. */
  lemma SpannedEndInside(lines: seq<string>, start: string -> bool, stop: string -> bool, opening: string -> string,
                         inner: string -> string, closing: string -> Option<string>, i: nat)
    requires i < |lines| && Ends(start, stop)(lines[i])
    ensures Spanned(lines, start, stop, opening, inner, closing, i, true) == Closings(lines, closing, i)
  {
    assert !start(lines[i]) && stop(lines[i]);
    assert SpanStep(start, stop, opening, inner, closing, lines[i], true) == (false, Kept(closing(lines[i])), true);
  }

  /** Inside the capture, any other line contributes its piece and the capture goes on. */
  lemma SpannedInner(lines: seq<string>, start: string -> bool, stop: string -> bool, opening: string -> string,
                     inner: string -> string, closing: string -> Option<string>, i: nat) returns (p: string)
    requires i < |lines| && !Ends(start, stop)(lines[i])
    ensures Piece(start, opening, inner)(lines[i]) == Some(p)
    ensures Spanned(lines, start, stop, opening, inner, closing, i, true) ==
              [p] + Spanned(lines, start, stop, opening, inner, closing, i + 1, true)
  {
    p := if start(lines[i]) then opening(lines[i]) else inner(lines[i]);
    assert !stop(lines[i]) || start(lines[i]);
    assert SpanStep(start, stop, opening, inner, closing, lines[i], true) == (true, [p], true);
  }

  /** A line that `f` rejects does not move the first line with `f`. */
  lemma FirstWithSkip(lines: seq<string>, f: string -> bool, i: nat)
    requires i < |lines| && !f(lines[i])
    ensures FirstWith(lines, f, i) == FirstWith(lines, f, i + 1)
  {
  }

  /** Before the capture, a line that neither starts nor stops it contributes nothing. */
  lemma SpannedSkip(lines: seq<string>, start: string -> bool, stop: string -> bool, opening: string -> string,
                    inner: string -> string, closing: string -> Option<string>, i: nat)
    requires i < |lines| && !start(lines[i]) && !stop(lines[i])
    ensures Spanned(lines, start, stop, opening, inner, closing, i, false) ==
              Spanned(lines, start, stop, opening, inner, closing, i + 1, false)
  {
    assert SpanStep(start, stop, opening, inner, closing, lines[i], false) == (true, [], false);
    assert [] + Spanned(lines, start, stop, opening, inner, closing, i + 1, false) ==
           Spanned(lines, start, stop, opening, inner, closing, i + 1, false);
  }

  /** A start line opens the capture whether or not it was open. */
  lemma SpannedStart(lines: seq<string>, start: string -> bool, stop: string -> bool, opening: string -> string,
                     inner: string -> string, closing: string -> Option<string>, i: nat)
    requires i < |lines| && start(lines[i])
    ensures Spanned(lines, start, stop, opening, inner, closing, i, false) ==
              Spanned(lines, start, stop, opening, inner, closing, i, true)
  {
    assert SpanStep(start, stop, opening, inner, closing, lines[i], false) ==
           SpanStep(start, stop, opening, inner, closing, lines[i], true);
  }

  /** An end line contributes its closing text and ends the loop. */
  lemma SpannedEnd(lines: seq<string>, start: string -> bool, stop: string -> bool, opening: string -> string,
                   inner: string -> string, closing: string -> Option<string>, i: nat)
    requires i < |lines| && Ends(start, stop)(lines[i])
    ensures Spanned(lines, start, stop, opening, inner, closing, i, false) == Closings(lines, closing, i)
  {
    assert !start(lines[i]) && stop(lines[i]);
    assert SpanStep(start, stop, opening, inner, closing, lines[i], false) == (false, Kept(closing(lines[i])), false);
  }

  lemma {:induction false} SpannedBefore(lines: seq<string>, start: string -> bool, stop: string -> bool, opening: string -> string,
                                         inner: string -> string, closing: string -> Option<string>, i: nat, s: nat, e: nat)
    requires i <= |lines|
    requires s == FirstWith(lines, start, i) && e == FirstWith(lines, Ends(start, stop), i)
    ensures Spanned(lines, start, stop, opening, inner, closing, i, false) ==
              if s < e then Spanned(lines, start, stop, opening, inner, closing, s, true) else Closings(lines, closing, e)
    decreases |lines| - i
  {
    if i == |lines| {
      assert s == e == i;
    } else if start(lines[i]) {
      assert s == i;
      assert !Ends(start, stop)(lines[i]);
      SpannedStart(lines, start, stop, opening, inner, closing, i);
    } else if Ends(start, stop)(lines[i]) {
      assert e == i && s >= i;
      SpannedEnd(lines, start, stop, opening, inner, closing, i);
    } else {
      assert !stop(lines[i]);
      FirstWithSkip(lines, start, i);
      FirstWithSkip(lines, Ends(start, stop), i);
      SpannedSkip(lines, start, stop, opening, inner, closing, i);
      SpannedBefore(lines, start, stop, opening, inner, closing, i + 1, s, e);
    }
  }

  /**
   * The capture spelled out: with `s` the first start line and `e` the first end line (one
   * that is not a start line), what the lines from `s` up to `e` contribute, then what line
   * `e` contributes; an end line before any start line still contributes.
   */
  lemma SpannedBetween(lines: seq<string>, start: string -> bool, stop: string -> bool, opening: string -> string,
                       inner: string -> string, closing: string -> Option<string>)
    ensures var s := FirstWith(lines, start, 0);
            var e := FirstWith(lines, Ends(start, stop), 0);
            Spanned(lines, start, stop, opening, inner, closing, 0, false) ==
              (if s < e then KeptUpTo(Piece(start, opening, inner), lines[s..e], e - s) else []) + Closings(lines, closing, e)
  {
    var s := FirstWith(lines, start, 0);
    var e := FirstWith(lines, Ends(start, stop), 0);
    SpannedBefore(lines, start, stop, opening, inner, closing, 0, s, e);
    if s < e {
      FirstWithFrom(lines, Ends(start, stop), 0, s);
      SpannedInside(lines, start, stop, opening, inner, closing, s, e);
    } else {
      assert [] + Closings(lines, closing, e) == Closings(lines, closing, e);
    }
  }

  /** Every captured entry is what `keep` yields for some line that does not start the capture. */
  lemma {:induction false} MarkedMember(lines: seq<string>, start: string -> bool, stop: string -> bool,
                                        keep: string -> Option<string>, i: nat, capture: bool, x: string)
    requires i <= |lines| && x in Marked(lines, start, stop, keep, i, capture)
    ensures exists j :: i <= j < |lines| && !start(lines[j]) && keep(lines[j]) == Some(x)
    decreases |lines| - i
  {
    var rest := Marked(lines, start, stop, keep, i + 1, capture);
    if start(lines[i]) {
      MarkedMember(lines, start, stop, keep, i + 1, true, x);
    } else if capture && keep(lines[i]) == Some(x) {
    } else {
      assert x in rest;
      MarkedMember(lines, start, stop, keep, i + 1, capture, x);
    }
  }

  /** Starting the search later, before the first hit, finds the same hit. */
  lemma {:induction false} FirstWithFrom(lines: seq<string>, f: string -> bool, i: nat, j: nat)
    requires i <= |lines| && i <= j <= FirstWith(lines, f, i)
    ensures FirstWith(lines, f, j) == FirstWith(lines, f, i)
    decreases j - i
  {
    if i < j {
      FirstWithFrom(lines, f, i + 1, j);
    }
  }

  // ---------------------------------------------------------------- the field collector

  /** An entry of `field_order`: a field's label and the markers that end its value. */
  datatype Entry = Entry(field: string, stops: seq<string>)

  /** A label a line may start with, and the key the value after it is stored under. */
  datatype Label = Label(prefix: string, key: string)

  /** How a label of `field_order` names its key: as itself, or with "Policy No." read as "Policy Number". */
  datatype Naming = AsLabelled | PolicyNoAsNumber

  function KeyOf(naming: Naming, field: string): string
  {
    if naming == PolicyNoAsNumber && field == "Policy No." then "Policy Number" else field
  }

  /**
   * A collector: an optional label checked before `field_order` (the denial letter's
   * "Policy No." test), the field order, and how its labels name their keys.
   */
  datatype Collector = Collector(special: Option<Label>, order: seq<Entry>, naming: Naming)

  /** The index of the first entry of `field_order` from `k` on whose label starts `line`. */
  function EntryFor(order: seq<Entry>, line: string, k: nat): (r: Option<nat>)
    requires k <= |order|
    ensures r.Some? ==> k <= r.value < |order| && StartsWith(line, order[r.value].field)
    ensures r.Some? ==> forall j :: k <= j < r.value ==> !StartsWith(line, order[j].field)
    ensures r.None? ==> forall j :: k <= j < |order| ==> !StartsWith(line, order[j].field)
    decreases |order| - k
  {
    if k == |order| then None
    else if StartsWith(line, order[k].field) then Some(k)
    else EntryFor(order, line, k + 1)
  }

  /** The label that starts a field on `line`: the special one, else the first of `field_order`. */
  function LabelFor(c: Collector, line: string): (r: Option<Label>)
    ensures r.Some? ==> StartsWith(line, r.value.prefix)
  {
    if c.special.Some? && StartsWith(line, c.special.value.prefix) then c.special
    else
      var k := EntryFor(c.order, line, 0);
      if k.Some? then Some(Label(c.order[k.value].field, KeyOf(c.naming, c.order[k.value].field))) else None
  }

  /** `next((f for f in field_order if f[0] == current_field), (None, []))[1]` */
  function StopsOf(order: seq<Entry>, key: string): seq<string>
    decreases |order|
  {
    if |order| == 0 then [] else if order[0].field == key then order[0].stops else StopsOf(order[1..], key)
  }

  /** `any(line.startswith(marker) for marker in stop_markers)` */
  predicate StopsAt(stops: seq<string>, line: string)
  {
    exists k :: 0 <= k < |stops| && StartsWith(line, stops[k])
  }

  /** The loop's variables: `current_field`, `collected_value` and the dictionary. */
  datatype State = State(field: Option<string>, pieces: seq<string>, data: map<string, string>)

  /** `current_field` is truthy. */
  predicate Open(st: State) { st.field.Some? && st.field.value != "" }

  /** `' '.join(collected_value).strip().lstrip(':').strip()` */
  function FlushText(pieces: seq<string>): (r: string)
    ensures IsStripped(r)
  {
    Strip(LStripChar(Strip(Join(" ", pieces)), ':'))
  }

  /** `if current_field and collected_value: extracted_data[current_field] = ...` */
  function Flushed(st: State): map<string, string>
  {
    if Open(st) && st.pieces != [] then st.data[st.field.value := FlushText(st.pieces)] else st.data
  }

  /**
   * One round of the `while` loop on `line`: whether `i` advances, and the new state. A
   * label line flushes the open field and opens its own with the rest of the line; a line
   * that starts one of the open field's stop markers flushes and closes the field and is
   * read again; any other line is added to the open field.
   */
  function Step(c: Collector, line: string, st: State): (r: (bool, State))
    ensures !r.0 ==> Open(st) && !Open(r.1)
  {
    var l := LabelFor(c, line);
    if l.Some? then (true, State(Some(l.value.key), [Strip(line[|l.value.prefix|..])], Flushed(st)))
    else if Open(st) && StopsAt(StopsOf(c.order, st.field.value), line) then (false, State(None, [], Flushed(st)))
    else (true, if Open(st) && line != "" then st.(pieces := st.pieces + [line]) else st)
  }

  /**
   * The `while i < len(lines)` loop from line `i` and state `st`, and the flush after it.
   * Each round advances `i` or closes the field, so the loop ends.
   */
  function Collect(c: Collector, lines: seq<string>, i: nat, st: State): map<string, string>
    requires i <= |lines|
    decreases |lines| - i, if Open(st) then 1 else 0
  {
    if i == |lines| then Flushed(st)
    else
      var r := Step(c, lines[i], st);
      Collect(c, lines, if r.0 then i + 1 else i, r.1)
  }

  /** The dictionary after the collector has read `lines`, starting from the defaults `init`. */
  function Collected(c: Collector, lines: seq<string>, init: map<string, string>): map<string, string>
  {
    Collect(c, lines, 0, State(None, [], init))
  }

  /** `for field, stop_markers in field_order: if line.startswith(field): ... break` */
  method FindLabel(c: Collector, line: string) returns (r: Option<Label>)
    ensures r == LabelFor(c, line)
  {
    if c.special.Some? && StartsWith(line, c.special.value.prefix) {
      return c.special;
    }
    var k := 0;
    while k < |c.order|
      invariant k <= |c.order|
      invariant EntryFor(c.order, line, k) == EntryFor(c.order, line, 0)
    {
      var field := c.order[k].field;
      if StartsWith(line, field) {
        return Some(Label(field, KeyOf(c.naming, field)));
      }
      k := k + 1;
    }
    return None;
  }

  /** The three outcomes of a round: a label line, a stop line of the open field, any other line. */
  lemma StepCases(c: Collector, line: string, st: State)
    ensures var l := LabelFor(c, line);
            l.Some? ==> Step(c, line, st) == (true, State(Some(l.value.key), [Strip(line[|l.value.prefix|..])], Flushed(st)))
    ensures LabelFor(c, line).None? && Open(st) && StopsAt(StopsOf(c.order, st.field.value), line) ==>
              Step(c, line, st) == (false, State(None, [], Flushed(st)))
    ensures LabelFor(c, line).None? && !(Open(st) && StopsAt(StopsOf(c.order, st.field.value), line)) ==>
              Step(c, line, st) == (true, if Open(st) && line != "" then st.(pieces := st.pieces + [line]) else st)
  {
  }

  /** The body of the `while` loop on `line`. */
  method StepLine(c: Collector, line: string, st: State) returns (advance: bool, st': State)
    ensures (advance, st') == Step(c, line, st)
  {
    StepCases(c, line, st);
    var field, pieces, data := st.field, st.pieces, st.data;
    var l := FindLabel(c, line);
    if l.Some? {
      if field.Some? && field.value != "" && pieces != [] {
        data := data[field.value := FlushText(pieces)];
      }
      assert data == Flushed(st);
      return true, State(Some(l.value.key), [Strip(line[|l.value.prefix|..])], data);
    }
    if field.Some? && field.value != "" {
      var stops := StopsOf(c.order, field.value);
      if exists k :: 0 <= k < |stops| && StartsWith(line, stops[k]) {
        if pieces != [] {
          data := data[field.value := FlushText(pieces)];
        }
        assert StopsAt(stops, line) && data == Flushed(st);
        return false, State(None, [], data);
      }
      assert !StopsAt(stops, line);
    }
    if field.Some? && field.value != "" && line != "" {
      pieces := pieces + [line];
    }
    return true, State(field, pieces, data);
  }

  /** The collector's loop over `lines` and the final flush. */
  method CollectFields(c: Collector, lines: seq<string>, init: map<string, string>) returns (data: map<string, string>)
    ensures data == Collected(c, lines, init)
  {
    var st := State(None, [], init);
    var i := 0;
    while i < |lines|
      invariant i <= |lines|
      invariant Collect(c, lines, i, st) == Collected(c, lines, init)
      decreases |lines| - i, if Open(st) then 1 else 0
    {
      var advance;
      advance, st := StepLine(c, lines[i], st);
      if advance {
        i := i + 1;
      }
    }
    data := st.data;
    if st.field.Some? && st.field.value != "" && st.pieces != [] {
      data := data[st.field.value := FlushText(st.pieces)];
    }
  }

  // ---------------------------------------------------------------- what the collector stores

  /** The keys the labels of `field_order` store under. */
  function OrderKeys(naming: Naming, order: seq<Entry>): set<string>
    decreases |order|
  {
    if |order| == 0 then {} else {KeyOf(naming, order[0].field)} + OrderKeys(naming, order[1..])
  }

  lemma {:induction false} OrderKeysHas(naming: Naming, order: seq<Entry>, k: nat)
    requires k < |order|
    ensures KeyOf(naming, order[k].field) in OrderKeys(naming, order)
    decreases k
  {
    if k > 0 {
      OrderKeysHas(naming, order[1..], k - 1);
    }
  }

  /** The keys the collector's labels store under. */
  function KeysOf(c: Collector): set<string>
  {
    OrderKeys(c.naming, c.order) + (if c.special.Some? then {c.special.value.key} else {})
  }

  lemma LabelKey(c: Collector, line: string)
    ensures LabelFor(c, line).Some? ==> LabelFor(c, line).value.key in KeysOf(c)
  {
    if !(c.special.Some? && StartsWith(line, c.special.value.prefix)) {
      var k := EntryFor(c.order, line, 0);
      if k.Some? {
        OrderKeysHas(c.naming, c.order, k.value);
      }
    }
  }

  /** The keys of `field_order` lie in `keys` when each label's key does. */
  lemma {:induction false} OrderKeysWithin(naming: Naming, order: seq<Entry>, keys: set<string>)
    requires forall k :: 0 <= k < |order| ==> KeyOf(naming, order[k].field) in keys
    ensures OrderKeys(naming, order) <= keys
    decreases |order|
  {
    if |order| > 0 {
      OrderKeysWithin(naming, order[1..], keys);
    }
  }

  /** One step stores only under the labels' keys and never removes a key. */
  lemma StepKeys(c: Collector, line: string, st: State)
    requires st.field.Some? ==> st.field.value in KeysOf(c)
    ensures var r := Step(c, line, st);
            st.data.Keys <= r.1.data.Keys <= st.data.Keys + KeysOf(c) &&
            (r.1.field.Some? ==> r.1.field.value in KeysOf(c))
  {
    LabelKey(c, line);
  }

  lemma {:induction false} CollectKeys(c: Collector, lines: seq<string>, i: nat, st: State)
    requires i <= |lines|
    requires st.field.Some? ==> st.field.value in KeysOf(c)
    ensures st.data.Keys <= Collect(c, lines, i, st).Keys <= st.data.Keys + KeysOf(c)
    decreases |lines| - i, if Open(st) then 1 else 0
  {
    if i < |lines| {
      var r := Step(c, lines[i], st);
      StepKeys(c, lines[i], st);
      CollectKeys(c, lines, if r.0 then i + 1 else i, r.1);
    }
  }

  /**
   * The collector adds no key outside its labels' keys and removes none; when the defaults
   * already hold every such key, the dictionary keeps exactly the keys it started with.
   */
  lemma CollectedKeys(c: Collector, lines: seq<string>, init: map<string, string>)
    ensures init.Keys <= Collected(c, lines, init).Keys <= init.Keys + KeysOf(c)
    ensures KeysOf(c) <= init.Keys ==> Collected(c, lines, init).Keys == init.Keys
  {
    CollectKeys(c, lines, 0, State(None, [], init));
  }

  /** No line from `i` on starts a field stored under `key`. */
  predicate NeverLabels(c: Collector, lines: seq<string>, i: nat, key: string)
  {
    forall k :: i <= k < |lines| ==> LabelFor(c, lines[k]).None? || LabelFor(c, lines[k]).value.key != key
  }

  lemma {:induction false} CollectKeepsDefault(c: Collector, lines: seq<string>, i: nat, st: State, key: string)
    requires i <= |lines| && key in st.data && st.field != Some(key)
    requires NeverLabels(c, lines, i, key)
    ensures key in Collect(c, lines, i, st) && Collect(c, lines, i, st)[key] == st.data[key]
    decreases |lines| - i, if Open(st) then 1 else 0
  {
    if i < |lines| {
      var r := Step(c, lines[i], st);
      assert LabelFor(c, lines[i]).None? || LabelFor(c, lines[i]).value.key != key;
      CollectKeepsDefault(c, lines, if r.0 then i + 1 else i, r.1, key);
    }
  }

  /** A field none of whose labels starts a line keeps its default value. */
  lemma CollectedKeepsDefault(c: Collector, lines: seq<string>, init: map<string, string>, key: string)
    requires key in init && NeverLabels(c, lines, 0, key)
    ensures key in Collected(c, lines, init) && Collected(c, lines, init)[key] == init[key]
  {
    CollectKeepsDefault(c, lines, 0, State(None, [], init), key);
  }

  /** A key no label stores under keeps its default. */
  lemma CollectedKeepsUnlabelled(c: Collector, lines: seq<string>, init: map<string, string>, key: string)
    requires key in init && key !in KeysOf(c)
    ensures key in Collected(c, lines, init) && Collected(c, lines, init)[key] == init[key]
  {
    forall k | 0 <= k < |lines| ensures LabelFor(c, lines[k]).None? || LabelFor(c, lines[k]).value.key != key {
      LabelKey(c, lines[k]);
    }
    CollectedKeepsDefault(c, lines, init, key);
  }

  /** Every value is the default it started with, or a flushed value, which is stripped. */
  predicate DefaultOrStripped(d: map<string, string>, init: map<string, string>)
  {
    forall k :: k in d ==> (k in init && d[k] == init[k]) || IsStripped(d[k])
  }

  lemma {:induction false} CollectValues(c: Collector, lines: seq<string>, i: nat, st: State, init: map<string, string>)
    requires i <= |lines| && DefaultOrStripped(st.data, init)
    ensures DefaultOrStripped(Collect(c, lines, i, st), init)
    decreases |lines| - i, if Open(st) then 1 else 0
  {
    FlushedValues(st, init);
    if i < |lines| {
      var r := Step(c, lines[i], st);
      StepValues(c, lines[i], st, init);
      CollectValues(c, lines, if r.0 then i + 1 else i, r.1, init);
    }
  }

  lemma StepValues(c: Collector, line: string, st: State, init: map<string, string>)
    requires DefaultOrStripped(st.data, init)
    ensures DefaultOrStripped(Step(c, line, st).1.data, init)
  {
    FlushedValues(st, init);
  }

  lemma FlushedValues(st: State, init: map<string, string>)
    requires DefaultOrStripped(st.data, init)
    ensures DefaultOrStripped(Flushed(st), init)
  {
  }

  lemma CollectedValues(c: Collector, lines: seq<string>, init: map<string, string>)
    ensures DefaultOrStripped(Collected(c, lines, init), init)
  {
    CollectValues(c, lines, 0, State(None, [], init), init);
  }

  /**
   * A label line with nothing after its label still opens its field with one (empty)
   * piece, so the field is flushed as the empty string, not left at its default, when the
   * next line starts another field or the lines end there.
   */
  lemma EmptyValueFlushed(c: Collector, lines: seq<string>, i: nat, st: State)
    requires i < |lines| && LabelFor(c, lines[i]).Some?
    requires var l := LabelFor(c, lines[i]).value; l.key != "" && Strip(lines[i][|l.prefix|..]) == ""
    requires i + 1 == |lines| || LabelFor(c, lines[i + 1]).Some?
    ensures var l := LabelFor(c, lines[i]).value;
            var st1 := Step(c, lines[i], st).1;
            st1 == State(Some(l.key), [""], Flushed(st)) &&
            Flushed(st1) == Flushed(st)[l.key := ""] &&
            (i + 1 == |lines| ==> Collect(c, lines, i, st) == Flushed(st)[l.key := ""]) &&
            (i + 1 < |lines| ==> Step(c, lines[i + 1], st1).1.data == Flushed(st)[l.key := ""])
  {
    var l := LabelFor(c, lines[i]).value;
    var st1 := State(Some(l.key), [""], Flushed(st));
    EmptyLabelStep(c, lines[i], st);
    FlushedEmpty(st1);
    if i + 1 == |lines| {
      assert Collect(c, lines, i, st) == Collect(c, lines, i + 1, st1);
    } else {
      StepCases(c, lines[i + 1], st1);
    }
  }

  /** A label line with nothing after its label opens its field with the one empty piece. */
  lemma EmptyLabelStep(c: Collector, line: string, st: State)
    requires LabelFor(c, line).Some?
    requires var l := LabelFor(c, line).value; Strip(line[|l.prefix|..]) == ""
    ensures Step(c, line, st) == (true, State(Some(LabelFor(c, line).value.key), [""], Flushed(st)))
  {
    StepCases(c, line, st);
  }

  /** An open field whose only piece is empty is flushed as the empty string. */
  lemma FlushedEmpty(st: State)
    requires Open(st) && st.pieces == [""]
    ensures Flushed(st) == st.data[st.field.value := ""]
  {
    assert FlushText([""]) == "" by {
      assert Join(" ", [""]) == "";
    }
  }

  /** Two collectors whose labels agree on every line and that share their field order collect alike. */
  lemma {:induction false} SameLabelsCollect(a: Collector, b: Collector, lines: seq<string>, i: nat, st: State)
    requires i <= |lines| && a.order == b.order
    requires forall k :: i <= k < |lines| ==> LabelFor(a, lines[k]) == LabelFor(b, lines[k])
    ensures Collect(a, lines, i, st) == Collect(b, lines, i, st)
    decreases |lines| - i, if Open(st) then 1 else 0
  {
    if i < |lines| {
      assert LabelFor(a, lines[i]) == LabelFor(b, lines[i]);
      var r := Step(a, lines[i], st);
      assert Step(b, lines[i], st) == r;
      SameLabelsCollect(a, b, lines, if r.0 then i + 1 else i, r.1);
    }
  }
}
