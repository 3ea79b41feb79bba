/**
 * The numbered-reason scanners shared by the ICICI query and denial extractors (icici.py):
 * the `findall` over a reason table after its header, and the line-walking scanner with its
 * `current_num`/`current_reason` accumulators. A reason is written `"<num>. <reason>"`.
 */
module IciciReasons {
  import opened Common
  import opened Text
  import opened Regex

  /** One numbered row: its number text and its reason text. */
  datatype Row = Row(num: string, reason: string)

  /** `f"{num}. {reason}"` */
  function RowText(r: Row): string { r.num + ". " + r.reason }

  /** A reason line: a leading run of digits followed by `". "`. */
  predicate RowShaped(e: string)
  {
    var d := DigitRun(e, 0);
    d >= 1 && d + 2 <= |e| && e[d..d + 2] == ". "
  }

  lemma {:induction false} DigitRunOfPrefix(n: string, rest: string, i: nat)
    requires i <= |n| && AllDigits(n) && (|rest| == 0 || !IsDigit(rest[0]))
    ensures DigitRun(n + rest, i) == |n| - i
    decreases |n| - i
  {
    if i < |n| {
      assert (n + rest)[i] == n[i];
      DigitRunOfPrefix(n, rest, i + 1);
    } else if |rest| > 0 {
      assert (n + rest)[i] == rest[0];
    }
  }

  /** A row with a non-empty all-digit number is written in the reason shape. */
  lemma RowTextShaped(r: Row)
    requires |r.num| >= 1 && AllDigits(r.num)
    ensures RowShaped(RowText(r))
  {
    var e := RowText(r);
    assert e == r.num + (". " + r.reason);
    DigitRunOfPrefix(r.num, ". " + r.reason, 0);
    assert e[|r.num|..|r.num| + 2] == ". ";
  }

  /** `if "Description" in x: x = x.split("Description")[0].strip()` */
  function CutDescription(x: string): (r: string)
    ensures !Contains(r, "Description")
  {
    if Contains(x, "Description") then
      var b := Before(x, "Description");
      var r := Strip(b);
      InfixAvoids(r, b, "Description");
      r
    else x
  }

  // ---------------------------------------------------------------- the reason table

  /** `(\d+)\s+([^0-9\n]+?)(?=\s+\d+\.\s+|\n\s*\d+\s+|Description|\n\n|$)`, case-sensitive. */
  const TableRow: Pattern := Pattern([
    Cap(1, Digit, 1, Unbounded, true), Rep(Space, 1, Unbounded, true),
    Cap(2, Negate(Union(Range('0', '9'), Chars("\n"))), 1, Unbounded, false),
    Ahead([Seq([Rep(Space, 1, Unbounded, true), Rep(Digit, 1, Unbounded, true), Lit("."), Rep(Space, 1, Unbounded, true)]),
           Seq([Lit("\n"), Rep(Space, 0, Unbounded, true), Rep(Digit, 1, Unbounded, true), Rep(Space, 1, Unbounded, true)]),
           Lit("Description"), Lit("\n\n"), LineEnd])], false, false)

  /** The `(num, reason)` tuples `re.findall` returns for a pattern with two groups. */
  function Pairs(p: Pattern, s: string): (ps: seq<Row>)
    ensures |ps| == |FindAll(p, s)|
  {
    var ms := FindAll(p, s);
    seq(|ms|, j requires 0 <= j < |ms| => Row(GroupText(ms[j], s, 1), GroupText(ms[j], s, 2)))
  }

  /** The row's number is a non-empty run of digits. */
  predicate Numbered(r: Row) { |r.num| >= 1 && AllDigits(r.num) }

  /** Every tuple the row pattern yields has a non-empty all-digit number. */
  lemma TablePairsNumbered(s: string)
    ensures forall j :: 0 <= j < |Pairs(TableRow, s)| ==> Numbered(Pairs(TableRow, s)[j])
  {
    FindAllLeadingCapture(TableRow, s, 1, Digit, 1);
  }

  /** A table row is kept when its stripped reason is longer than three characters. */
  function TableRowOf(row: Row): (r: Option<string>)
  {
    var reason := Strip(row.reason);
    if reason != "" && |reason| > 3 then Some(RowText(Row(row.num, CutDescription(reason)))) else None
  }

  /** The reasons of a table text: one per tuple of the row pattern whose reason is long enough. */
  function TableRows(s: string): seq<string>
  {
    var ps := Pairs(TableRow, s);
    KeptUpTo(TableRowOf, ps, |ps|)
  }

  /** `for num, reason in reason_matches: ... reasons.append(f"{num}. {reason}")` */
  method CollectRows(ps: seq<Row>) returns (out: seq<string>)
    ensures out == KeptUpTo(TableRowOf, ps, |ps|)
  {
    out := CollectKept(TableRowOf, ps);
  }

  /** The reasons of the table text `s`. */
  method CollectTableRows(s: string) returns (out: seq<string>)
    ensures out == TableRows(s)
  {
    var ps := Pairs(TableRow, s);
    out := CollectRows(ps);
  }

  /** A kept row whose number is a non-empty run of digits is written in the reason shape. */
  lemma TableRowOfShaped(row: Row)
    requires Numbered(row)
    ensures TableRowOf(row).Some? ==> RowShaped(TableRowOf(row).value)
  {
    RowTextShaped(Row(row.num, CutDescription(Strip(row.reason))));
  }

  /** Every line of `rs` is written in the reason shape. */
  predicate AllShaped(rs: seq<string>)
  {
    forall j :: 0 <= j < |rs| ==> RowShaped(rs[j])
  }

  lemma AllShapedAppend(rs: seq<string>, more: seq<string>)
    requires AllShaped(rs) && AllShaped(more)
    ensures AllShaped(rs + more)
  {
    forall j | 0 <= j < |rs + more| ensures RowShaped((rs + more)[j]) {
      if j >= |rs| {
        assert (rs + more)[j] == more[j - |rs|];
      }
    }
  }

  /** Every reason the table yields is written `<digits>. <reason>`. */
  lemma {:induction false} TableRowsUpToShaped(ps: seq<Row>, k: nat)
    requires k <= |ps|
    requires forall j :: 0 <= j < |ps| ==> Numbered(ps[j])
    ensures AllShaped(KeptUpTo(TableRowOf, ps, k))
  {
    if k > 0 {
      TableRowsUpToShaped(ps, k - 1);
      TableRowOfShaped(ps[k - 1]);
      AllShapedAppend(KeptUpTo(TableRowOf, ps, k - 1), Kept(TableRowOf(ps[k - 1])));
    }
  }

  lemma TableRowsShaped(s: string)
    ensures AllShaped(TableRows(s))
  {
    TablePairsNumbered(s);
    var ps := Pairs(TableRow, s);
    TableRowsUpToShaped(ps, |ps|);
  }

  // ---------------------------------------------------------------- the line scanner

  /**
   * The two line scanners: the query letter's walks the REMARKS section and stops at
   * "Any Other document" / "We request you"; the denial letter's walks the whole text, reads
   * numbered lines only after a "Sr No ... Reason ... Description" header line, and stops at
   * "Important Note" / "Note:".
   */
  datatype ScanMode = QueryScan | DeniedScan

  /** `"Sr No" in line and "Reason" in line and "Description" in line` (denial letters only). */
  predicate IsHeader(mode: ScanMode, line: string)
  {
    mode == DeniedScan && Contains(line, "Sr No") && Contains(line, "Reason") && Contains(line, "Description")
  }

  /** The line that ends the scan. */
  predicate IsTerminator(mode: ScanMode, line: string)
  {
    match mode
    case QueryScan => Contains(line, "Any Other document") || Contains(line, "We request you")
    case DeniedScan => Contains(line, "Important Note") || Contains(line, "Note:")
  }

  /** `^\s*(\d+)\s+(.+)$`, case-sensitive. */
  const NumberedLinePattern: Pattern := Pattern([
    Rep(Space, 0, Unbounded, true), Cap(1, Digit, 1, Unbounded, true), Rep(Space, 1, Unbounded, true),
    Cap(2, NotNewline, 1, Unbounded, true), LineEnd], false, false)

  /** The number a numbered line's match captures is all digits (empty when unset). */
  lemma NumberDigits(line: string, m: Match)
    requires MatchFrom(NumberedLinePattern, line, 0) == Some(m)
    ensures ValidMatch(m, line) && AllDigits(GroupText(m, line, 1))
  {
    if 1 in m.caps {
      CapturedText(NumberedLinePattern, line, m, 1, Digit, 1);
    }
  }

  /**
   * `re.match(r"^\s*(\d+)\s+(.+)$", line)`: the number and the reason of a numbered line, the
   * reason stripped and cut before "Description".
   */
  function NumberedLine(line: string): (r: Option<Row>)
    ensures r.Some? ==> AllDigits(r.value.num) && !Contains(r.value.reason, "Description")
  {
    var m := MatchFrom(NumberedLinePattern, line, 0);
    if m.None? then None
    else
      NumberDigits(line, m.value);
      Some(Row(GroupText(m.value, line, 1), CutDescription(Strip(GroupText(m.value, line, 2)))))
  }

  /** What one line is to the scanner, before the scanner's own variables come in. */
  datatype LineKind =
    | Blank                                 // empty once stripped: `continue`
    | Header                                // the denial table's header line: `in_table = True`
    | Body(row: Option<Row>, stop: bool)    // any other line: its numbered row, and whether it terminates

  /** The kind of the line `raw`. */
  function Classify(mode: ScanMode, raw: string): (k: LineKind)
    ensures k.Body? && k.row.Some? ==> AllDigits(k.row.value.num) && !Contains(k.row.value.reason, "Description")
  {
    var line := Strip(raw);
    if line == "" then Blank
    else if IsHeader(mode, line) then Header
    else Body(NumberedLine(line), IsTerminator(mode, line))
  }

  /** The loop body's reading of one line, as a method. */
  method ClassifyLine(mode: ScanMode, raw: string) returns (k: LineKind)
    ensures k == Classify(mode, raw)
  {
    var line := Strip(raw);
    if line == "" {
      k := Blank;
    } else if IsHeader(mode, line) {
      k := Header;
    } else {
      var row := NumberedLine(line);
      k := Body(row, IsTerminator(mode, line));
    }
  }

  /** The kinds of all of `lines`. */
  function Kinds(mode: ScanMode, lines: seq<string>): (ks: seq<LineKind>)
    ensures |ks| == |lines|
  {
    if |lines| == 0 then [] else [Classify(mode, lines[0])] + Kinds(mode, lines[1..])
  }

  lemma {:induction false} KindsAt(mode: ScanMode, lines: seq<string>, i: nat)
    requires i < |lines|
    ensures Kinds(mode, lines)[i] == Classify(mode, lines[i])
  {
    if i > 0 {
      KindsAt(mode, lines[1..], i - 1);
    }
  }

  /** `if current_num and current_reason: reasons.append(f"{current_num}. {current_reason}")` */
  function Flush(pending: Option<Row>): seq<string>
  {
    if pending.Some? && pending.value.num != "" && pending.value.reason != "" then [RowText(pending.value)] else []
  }

  /**
   * The scanner's variables: `current_num`/`current_reason` (set together, so one optional
   * row), `in_table`, the reasons appended so far, and whether the loop has broken off.
   */
  datatype Scan = Scan(pending: Option<Row>, inTable: bool, out: seq<string>, done: bool)

  const ScanStart: Scan := Scan(None, false, [], false)

  /** One iteration of the loop body on a line of kind `k`. */
  function Step(mode: ScanMode, st: Scan, k: LineKind): Scan
  {
    match k
    case Blank => st
    case Header => st.(inTable := true)
    case Body(row, stop) =>
      if mode == DeniedScan && !st.inTable then st
      else
        var pending := if row.Some? then row else st.pending;
        var out := if row.Some? then st.out + Flush(st.pending) else st.out;
        if stop then Scan(pending, st.inTable, out + Flush(pending), true)
        else Scan(pending, st.inTable, out, false)
  }

  /** The scanner's variables after the first `n` lines of kinds `ks`; it stops at its terminator. */
  function ScanUpTo(mode: ScanMode, ks: seq<LineKind>, n: nat): Scan
    requires n <= |ks|
  {
    if n == 0 then ScanStart
    else
      var st := ScanUpTo(mode, ks, n - 1);
      if st.done then st else Step(mode, st, ks[n - 1])
  }

  /** The reasons the scanner appends over all of `lines`. */
  function ScanLines(mode: ScanMode, lines: seq<string>): seq<string>
  {
    var ks := Kinds(mode, lines);
    ScanUpTo(mode, ks, |ks|).out
  }

  /** Once the loop has broken off, later lines change nothing. */
  lemma {:induction false} ScanStaysDone(mode: ScanMode, ks: seq<LineKind>, k: nat, n: nat)
    requires k <= n <= |ks| && ScanUpTo(mode, ks, k).done
    ensures ScanUpTo(mode, ks, n) == ScanUpTo(mode, ks, k)
    decreases n - k
  {
    if n > k {
      ScanStaysDone(mode, ks, k, n - 1);
    }
  }

  /** The loop body after the line is read: the updates to the scanner's variables. */
  method Advance(mode: ScanMode, k: LineKind, pending: Option<Row>, inTable: bool, reasons: seq<string>)
    returns (pending': Option<Row>, inTable': bool, reasons': seq<string>, stop: bool)
    ensures Scan(pending', inTable', reasons', stop) == Step(mode, Scan(pending, inTable, reasons, false), k)
  {
    pending', inTable', reasons', stop := pending, inTable, reasons, false;
    match k
    case Blank =>
    case Header =>
      inTable' := true;
    case Body(row, terminates) =>
      if mode == QueryScan || inTable {
        if row.Some? {
          if pending.Some? && pending.value.num != "" && pending.value.reason != "" {
            reasons' := reasons + [RowText(pending.value)];
          }
          pending' := row;
        }
        if terminates {
          if pending'.Some? && pending'.value.num != "" && pending'.value.reason != "" {
            reasons' := reasons' + [RowText(pending'.value)];
          }
          stop := true;
        }
      }
  }

  /** `for line in lines: ...`, breaking off at the terminator. */
  method ScanReasonLines(mode: ScanMode, lines: seq<string>) returns (reasons: seq<string>)
    ensures reasons == ScanLines(mode, lines)
  {
    ghost var ks := Kinds(mode, lines);
    var pending: Option<Row> := None;
    var inTable := false;
    reasons := [];
    var n := 0;
    while n < |lines|
      invariant n <= |lines|
      invariant ScanUpTo(mode, ks, n) == Scan(pending, inTable, reasons, false)
    {
      var k := ClassifyLine(mode, lines[n]);
      KindsAt(mode, lines, n);
      var stop;
      pending, inTable, reasons, stop := Advance(mode, k, pending, inTable, reasons);
      n := n + 1;
      if stop {
        ScanStaysDone(mode, ks, n, |lines|);
        return;
      }
    }
  }

  // ---------------------------------------------------------------- what the scanner yields

  /**
   * A reference reading of the scan without the one-row delay: the numbered rows met (in the
   * table, for a denial letter) up to and including the terminating line.
   */
  datatype Walk = Walk(rows: seq<Row>, inTable: bool, done: bool)

  function WalkStep(mode: ScanMode, w: Walk, k: LineKind): Walk
  {
    match k
    case Blank => w
    case Header => w.(inTable := true)
    case Body(row, stop) =>
      if mode == DeniedScan && !w.inTable then w
      else Walk(if row.Some? then w.rows + [row.value] else w.rows, w.inTable, stop)
  }

  function WalkUpTo(mode: ScanMode, ks: seq<LineKind>, n: nat): Walk
    requires n <= |ks|
  {
    if n == 0 then Walk([], false, false)
    else
      var w := WalkUpTo(mode, ks, n - 1);
      if w.done then w else WalkStep(mode, w, ks[n - 1])
  }

  /** The reason lines of `rows`, skipping a row whose number or reason is empty. */
  function Rendered(rows: seq<Row>): seq<string>
  {
    if |rows| == 0 then [] else Rendered(rows[..|rows| - 1]) + Flush(Some(rows[|rows| - 1]))
  }

  function Last(rows: seq<Row>): Option<Row> { if |rows| == 0 then None else Some(rows[|rows| - 1]) }

  function AllButLast(rows: seq<Row>): seq<Row> { if |rows| == 0 then [] else rows[..|rows| - 1] }

  /**
   * The scanner holds back the last row it met: its reasons are the rows met before it, and the
   * held row is added only at the terminating line.
   */
  predicate Tracks(st: Scan, w: Walk)
  {
    st.inTable == w.inTable && st.done == w.done && st.pending == Last(w.rows) &&
    st.out == Rendered(if w.done then w.rows else AllButLast(w.rows))
  }

  lemma RenderedSnoc(rows: seq<Row>, r: Row)
    ensures AllButLast(rows + [r]) == rows
    ensures Rendered(rows + [r]) == Rendered(rows) + Flush(Some(r))
  {
    assert (rows + [r])[..|rows|] == rows;
  }

  lemma RenderedLast(rows: seq<Row>)
    ensures Rendered(rows) == Rendered(AllButLast(rows)) + Flush(Last(rows))
  {
  }

  lemma TracksStep(mode: ScanMode, st: Scan, w: Walk, k: LineKind)
    requires Tracks(st, w) && !w.done
    ensures Tracks(Step(mode, st, k), WalkStep(mode, w, k))
  {
    if k.Body? && !(mode == DeniedScan && !w.inTable) {
      if k.row.Some? {
        RenderedLast(w.rows);
        RenderedSnoc(w.rows, k.row.value);
      } else {
        RenderedLast(w.rows);
      }
    }
  }

  lemma {:induction false} ScanIsWalk(mode: ScanMode, ks: seq<LineKind>, n: nat)
    requires n <= |ks|
    ensures Tracks(ScanUpTo(mode, ks, n), WalkUpTo(mode, ks, n))
  {
    if n > 0 {
      ScanIsWalk(mode, ks, n - 1);
      var w := WalkUpTo(mode, ks, n - 1);
      if !w.done {
        TracksStep(mode, ScanUpTo(mode, ks, n - 1), w, ks[n - 1]);
      }
    }
  }

  /** What the scanner yields over all of `lines`, read off the reference walk. */
  lemma ScanLinesRendered(mode: ScanMode, lines: seq<string>)
    ensures var ks := Kinds(mode, lines);
            var w := WalkUpTo(mode, ks, |ks|);
            ScanLines(mode, lines) == Rendered(if w.done then w.rows else AllButLast(w.rows))
  {
    var ks := Kinds(mode, lines);
    ScanIsWalk(mode, ks, |ks|);
  }

  /** A line's numbered row, if any, has an all-digit number. */
  predicate KindNumbered(k: LineKind) { k.Body? && k.row.Some? ==> AllDigits(k.row.value.num) }

  predicate DigitNumbers(rows: seq<Row>) { forall j :: 0 <= j < |rows| ==> AllDigits(rows[j].num) }

  lemma KindsNumbered(mode: ScanMode, lines: seq<string>)
    ensures forall i :: 0 <= i < |lines| ==> KindNumbered(Kinds(mode, lines)[i])
  {
    forall i | 0 <= i < |lines| ensures KindNumbered(Kinds(mode, lines)[i]) {
      KindsAt(mode, lines, i);
    }
  }

  lemma {:induction false} WalkDigitNumbers(mode: ScanMode, ks: seq<LineKind>, n: nat)
    requires n <= |ks|
    requires forall i :: 0 <= i < |ks| ==> KindNumbered(ks[i])
    ensures DigitNumbers(WalkUpTo(mode, ks, n).rows)
  {
    if n > 0 {
      WalkDigitNumbers(mode, ks, n - 1);
      var w := WalkUpTo(mode, ks, n - 1);
      assert KindNumbered(ks[n - 1]);
      if !w.done && ks[n - 1].Body? && ks[n - 1].row.Some? {
        var rows := w.rows + [ks[n - 1].row.value];
        assert forall j :: 0 <= j < |w.rows| ==> rows[j] == w.rows[j];
      }
    }
  }

  /** Every line `Rendered` yields from rows with all-digit numbers is in the reason shape. */
  lemma {:induction false} RenderedShaped(rows: seq<Row>)
    requires DigitNumbers(rows)
    ensures AllShaped(Rendered(rows))
    decreases |rows|
  {
    if |rows| > 0 {
      var front := rows[..|rows| - 1];
      var r := rows[|rows| - 1];
      assert DigitNumbers(front) by {
        assert forall j :: 0 <= j < |front| ==> front[j] == rows[j];
      }
      RenderedShaped(front);
      if r.num != "" && r.reason != "" {
        RowTextShaped(r);
      }
      AllShapedAppend(Rendered(front), Flush(Some(r)));
    }
  }

  /** Every reason the line scanner yields is written `<digits>. <reason>`. */
  lemma ScanLinesShaped(mode: ScanMode, lines: seq<string>)
    ensures AllShaped(ScanLines(mode, lines))
  {
    var ks := Kinds(mode, lines);
    KindsNumbered(mode, lines);
    ScanLinesRendered(mode, lines);
    var w := WalkUpTo(mode, ks, |ks|);
    WalkDigitNumbers(mode, ks, |ks|);
    var rows := if w.done then w.rows else AllButLast(w.rows);
    assert DigitNumbers(rows) by {
      assert forall j :: 0 <= j < |rows| ==> rows[j] == w.rows[j];
    }
    RenderedShaped(rows);
  }

  // ---------------------------------------------------------------- the section and its table

  /** `m = re.search(p, text)`; `m.group(1).strip()` when it matched, `""` otherwise. */
  function Section(p: Pattern, text: string): (r: string)
    ensures IsStripped(r) && IsInfix(r, text)
    ensures !Finds(p, text) ==> r == ""
  {
    var m := Search(p, text);
    if m.None? then
      assert OccursAt(text, "", 0);
      ""
    else
      var g := GroupText(m.value, text, 1);
      var e := Strip(g);
      GroupTextInfix(m.value, text, 1);
      InfixTrans(e, g, text);
      e
  }

  /**
   * The table of a section: the rows found after the end of the first match of the header
   * pattern, or none when the header is absent.
   */
  function HeaderTable(header: Pattern, section: string): seq<string>
  {
    var m := Search(header, section);
    if m.None? then [] else TableRows(section[m.value.end..])
  }

  lemma HeaderTableShaped(header: Pattern, section: string)
    ensures AllShaped(HeaderTable(header, section))
  {
    var m := Search(header, section);
    if m.Some? {
      TableRowsShaped(section[m.value.end..]);
    }
  }

  /** `table_header_match = re.search(...)` and the tuple loop over what follows it. */
  method CollectHeaderTable(header: Pattern, section: string) returns (out: seq<string>)
    ensures out == HeaderTable(header, section)
  {
    var m := Search(header, section);
    out := [];
    if m.Some? {
      out := CollectTableRows(section[m.value.end..]);
    }
  }
}
