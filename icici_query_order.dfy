/**
 * The last step of the query letter's reasons (icici.py, `extract_query_letter_fields`):
 * the reasons are rearranged into the slots 1 to 5. Slot `i` takes the first reason that
 * starts with `"i."`; an empty slot below a filled one takes the stock query of that number;
 * slots above the highest filled one stay empty, and so does every reason numbered above 5,
 * unless none of the slots is filled, in which case the list is left as it was.
 */
module IciciQueryOrder {
  import opened Common
  import opened Text
  import opened IciciReasons

  /** `common_queries` / `common_reasons`: the stock queries, numbered 1 to 5. */
  const StockQueries: seq<string> := [
    "Past Medical/Surgical History",
    "Documents not received",
    "Investigation Reports",
    "Case Summary",
    "Indoor Case Papers"
  ]

  /** `f"{i}."` */
  function Label(i: nat): string { NatToString(i) + "." }

  /** `e.startswith(f"{i}.")` */
  predicate Tagged(e: string, i: nat) { StartsWith(e, Label(i)) }

  /** `f"{i}. {common_reasons[i]}"` */
  function StockEntry(i: nat): string
    requires 1 <= i <= 5
  {
    RowText(Row(NatToString(i), StockQueries[i - 1]))
  }

  lemma StockEntryTagged(i: nat)
    requires 1 <= i <= 5
    ensures Tagged(StockEntry(i), i) && RowShaped(StockEntry(i))
  {
    assert StockEntry(i) == Label(i) + " " + StockQueries[i - 1];
    RowTextShaped(Row(NatToString(i), StockQueries[i - 1]));
  }

  /** A line starts with at most one of the labels `"1."` to `"9."`. */
  lemma LabelsDistinct(e: string, i: nat, j: nat)
    requires 1 <= i <= 9 && 1 <= j <= 9
    requires Tagged(e, i) && Tagged(e, j)
    ensures i == j
  {
    assert Label(i)[0] == e[0] == Label(j)[0];
    assert Label(i)[0] == DigitChar(i) && Label(j)[0] == DigitChar(j);
  }

  // ---------------------------------------------------------------- slots

  /** The index of the first reason tagged `i`: `for r in reasons: if r.startswith(f"{i}."): ... break`. */
  function SlotIndex(rs: seq<string>, i: nat): (r: Option<nat>)
    ensures r.Some? ==> r.value < |rs| && Tagged(rs[r.value], i)
    ensures r.Some? ==> forall k :: 0 <= k < r.value ==> !Tagged(rs[k], i)
    ensures r.None? ==> forall k :: 0 <= k < |rs| ==> !Tagged(rs[k], i)
    decreases |rs|
  {
    if |rs| == 0 then None
    else if Tagged(rs[0], i) then Some(0)
    else
      var r := SlotIndex(rs[1..], i);
      if r.Some? then Some(r.value + 1) else None
  }

  /** `any(r.startswith(f"{i}.") for r in reasons)` */
  predicate Present(rs: seq<string>, i: nat) { exists k :: 0 <= k < |rs| && Tagged(rs[k], i) }

  lemma SlotIndexPresent(rs: seq<string>, i: nat)
    ensures SlotIndex(rs, i).Some? <==> Present(rs, i)
  {
    var r := SlotIndex(rs, i);
    if r.Some? {
      assert Tagged(rs[r.value], i);
    }
  }

  /** `any(r.startswith(f"{j}.") for j in range(i+1, 6) for r in reasons)` */
  predicate HigherPresent(rs: seq<string>, i: nat) { exists j :: i < j <= 5 && Present(rs, j) }

  /** What slot `i` receives: its first tagged reason, else the stock query when a higher slot is filled. */
  function Pick(rs: seq<string>, i: nat): seq<string>
    requires 1 <= i <= 5
  {
    var k := SlotIndex(rs, i);
    if k.Some? then [rs[k.value]]
    else if HigherPresent(rs, i) then [StockEntry(i)]
    else []
  }

  /** `sorted_reasons` after the slots 1 to `n`. */
  function ArrangedUpTo(rs: seq<string>, n: nat): seq<string>
    requires n <= 5
  {
    if n == 0 then [] else ArrangedUpTo(rs, n - 1) + Pick(rs, n)
  }

  /** The whole rearrangement: `if sorted_reasons: reasons = sorted_reasons`. */
  function Reconcile(rs: seq<string>): (r: seq<string>)
    ensures r == [] <==> rs == []
  {
    if rs == [] then []
    else
      var sorted := ArrangedUpTo(rs, 5);
      if sorted == [] then rs else sorted
  }

  // ---------------------------------------------------------------- the loops

  /** The inner loop: the first reason tagged `i`, if any. */
  method FindSlot(rs: seq<string>, i: nat) returns (r: Option<string>)
    ensures r.Some? <==> SlotIndex(rs, i).Some?
    ensures r.Some? ==> r.value == rs[SlotIndex(rs, i).value]
  {
    var k := 0;
    while k < |rs|
      invariant k <= |rs|
      invariant forall j :: 0 <= j < k ==> !Tagged(rs[j], i)
    {
      if Label(i) <= rs[k] {
        SlotIndexIs(rs, i, k);
        return Some(rs[k]);
      }
      k := k + 1;
    }
    SlotIndexNone(rs, i);
    return None;
  }

  lemma {:induction false} SlotIndexIs(rs: seq<string>, i: nat, k: nat)
    requires k < |rs| && Tagged(rs[k], i)
    requires forall j :: 0 <= j < k ==> !Tagged(rs[j], i)
    ensures SlotIndex(rs, i) == Some(k)
    decreases k
  {
    if k > 0 {
      assert !Tagged(rs[0], i);
      assert forall j :: 0 <= j < k - 1 ==> rs[1..][j] == rs[j + 1];
      SlotIndexIs(rs[1..], i, k - 1);
    }
  }

  lemma SlotIndexNone(rs: seq<string>, i: nat)
    requires forall j :: 0 <= j < |rs| ==> !Tagged(rs[j], i)
    ensures SlotIndex(rs, i).None?
  {
  }

  /** The loop `for i in range(1, 6)` and the final replacement. */
  method ReconcileReasons(rs: seq<string>) returns (out: seq<string>)
    ensures out == Reconcile(rs)
  {
    if |rs| == 0 {
      return rs;
    }
    var sorted: seq<string> := [];
    var i := 1;
    while i < 6
      invariant 1 <= i <= 6
      invariant sorted == ArrangedUpTo(rs, i - 1)
    {
      var p := PickSlot(rs, i);
      sorted := sorted + p;
      i := i + 1;
    }
    out := if sorted != [] then sorted else rs;
  }

  /** One round of the loop: slot `i`'s first tagged reason, else its stock query when a higher slot is filled. */
  method PickSlot(rs: seq<string>, i: nat) returns (p: seq<string>)
    requires 1 <= i <= 5
    ensures p == Pick(rs, i)
  {
    var found := FindSlot(rs, i);
    if found.Some? {
      p := [found.value];
    } else if exists j :: i < j <= 5 && Present(rs, j) {
      p := [StockEntry(i)];
    } else {
      p := [];
    }
  }

  // ---------------------------------------------------------------- what the rearrangement yields

  /** The slot number of each entry of `ArrangedUpTo(rs, n)`. */
  ghost function SlotsUpTo(rs: seq<string>, n: nat): seq<nat>
    requires n <= 5
  {
    if n == 0 then [] else SlotsUpTo(rs, n - 1) + (if |Pick(rs, n)| == 1 then [n] else [])
  }

  predicate Increasing(ls: seq<nat>) { forall a, b :: 0 <= a < b < |ls| ==> ls[a] < ls[b] }

  /** Entry `k` of `out` is tagged with slot `ls[k]`, which lies in 1 to n. */
  predicate LabelledBy(out: seq<string>, ls: seq<nat>, n: nat)
  {
    |ls| == |out| && forall k :: 0 <= k < |ls| ==> 1 <= ls[k] <= n && Tagged(out[k], ls[k])
  }

  /** What slot `i` holds: its first tagged reason, or else the stock query. */
  function SlotContent(rs: seq<string>, i: nat): string
    requires 1 <= i <= 5
  {
    var k := SlotIndex(rs, i);
    if k.Some? then rs[k.value] else StockEntry(i)
  }

  predicate FilledFrom(rs: seq<string>, out: seq<string>, ls: seq<nat>)
    requires |ls| == |out| && forall k :: 0 <= k < |ls| ==> 1 <= ls[k] <= 5
  {
    forall k :: 0 <= k < |ls| ==> out[k] == SlotContent(rs, ls[k])
  }

  /** Some slot from `i` to 5 has a tagged reason. */
  predicate Filled(rs: seq<string>, i: nat) { exists j :: i <= j <= 5 && Present(rs, j) }

  lemma PickNonEmpty(rs: seq<string>, i: nat)
    requires 1 <= i <= 5
    ensures |Pick(rs, i)| <= 1
    ensures |Pick(rs, i)| == 1 <==> Filled(rs, i)
    ensures |Pick(rs, i)| == 1 ==> Pick(rs, i)[0] == SlotContent(rs, i) && Tagged(Pick(rs, i)[0], i)
  {
    SlotIndexPresent(rs, i);
    StockEntryTagged(i);
    if Present(rs, i) {
      assert Filled(rs, i);
    }
  }

  /** Appending slot `n`'s content, tagged `n`, keeps both the labelling and the contents. */
  lemma SnocSlot(rs: seq<string>, out: seq<string>, ls: seq<nat>, n: nat, e: string)
    requires 1 <= n <= 5
    requires LabelledBy(out, ls, n - 1) && FilledFrom(rs, out, ls)
    requires Tagged(e, n) && e == SlotContent(rs, n)
    ensures LabelledBy(out + [e], ls + [n], n) && FilledFrom(rs, out + [e], ls + [n])
  {
    var out', ls' := out + [e], ls + [n];
    assert forall k :: 0 <= k < |ls| ==> out'[k] == out[k] && ls'[k] == ls[k];
  }

  lemma LabelledWider(out: seq<string>, ls: seq<nat>, n: nat)
    requires LabelledBy(out, ls, n)
    ensures LabelledBy(out, ls, n + 1)
  {
  }

  lemma SingleEntry(xs: seq<string>)
    requires |xs| == 1
    ensures xs == [xs[0]]
  {
  }

  lemma {:induction false} SlotsLabelled(rs: seq<string>, n: nat)
    requires n <= 5
    ensures LabelledBy(ArrangedUpTo(rs, n), SlotsUpTo(rs, n), n)
    ensures FilledFrom(rs, ArrangedUpTo(rs, n), SlotsUpTo(rs, n))
  {
    if n > 0 {
      SlotsLabelled(rs, n - 1);
      PickNonEmpty(rs, n);
      var out, ls := ArrangedUpTo(rs, n - 1), SlotsUpTo(rs, n - 1);
      var p := Pick(rs, n);
      if |p| == 1 {
        SingleEntry(p);
        SnocSlot(rs, out, ls, n, p[0]);
        assert ArrangedUpTo(rs, n) == out + [p[0]];
        assert SlotsUpTo(rs, n) == ls + [n];
      } else {
        LabelledWider(out, ls, n - 1);
        assert ArrangedUpTo(rs, n) == out && SlotsUpTo(rs, n) == ls;
      }
    }
  }

  lemma {:induction false} SlotsIncreasing(rs: seq<string>, n: nat)
    requires n <= 5
    ensures forall k :: 0 <= k < |SlotsUpTo(rs, n)| ==> 1 <= SlotsUpTo(rs, n)[k] <= n
    ensures Increasing(SlotsUpTo(rs, n))
  {
    if n > 0 {
      SlotsIncreasing(rs, n - 1);
      var ls := SlotsUpTo(rs, n - 1);
      if |Pick(rs, n)| == 1 {
        var ls' := ls + [n];
        assert SlotsUpTo(rs, n) == ls';
        assert forall k :: 0 <= k < |ls| ==> ls'[k] == ls[k];
      }
    }
  }

  /** Slot `i` is filled exactly when some slot from `i` to 5 has a tagged reason. */
  lemma {:induction false} SlotsNoGaps(rs: seq<string>, n: nat, i: nat)
    requires 1 <= i <= n <= 5
    ensures i in SlotsUpTo(rs, n) <==> Filled(rs, i)
  {
    var ls := SlotsUpTo(rs, n - 1);
    if i < n {
      SlotsNoGaps(rs, n - 1, i);
    } else {
      SlotsIncreasing(rs, n - 1);
      PickNonEmpty(rs, n);
      assert n !in ls;
    }
    if |Pick(rs, n)| == 1 {
      assert SlotsUpTo(rs, n) == ls + [n];
    } else {
      assert SlotsUpTo(rs, n) == ls;
    }
  }

  /** The slot a reason line names: its leading digit when that is 1 to 5, else 0. */
  function SlotOf(e: string): (i: nat)
    ensures i <= 5
    ensures 1 <= i ==> Tagged(e, i) || !(|e| >= 2 && e[1] == '.')
  {
    if |e| > 0 && '1' <= e[0] <= '5' then e[0] as int - '0' as int else 0
  }

  lemma SlotOfTagged(e: string, i: nat)
    requires 1 <= i <= 5 && Tagged(e, i)
    ensures SlotOf(e) == i
  {
    assert Label(i)[0] == e[0] && Label(i)[0] == DigitChar(i);
  }

  /** `e` is what slot `i` holds: it is tagged `i` and is the slot's first tagged reason or its stock query. */
  predicate HoldsSlot(rs: seq<string>, e: string, i: nat)
  {
    1 <= i <= 5 && Tagged(e, i) && e == SlotContent(rs, i)
  }

  /**
   * Every rearranged reason is tagged with the slot its leading digit names, and is that
   * slot's content: its first tagged reason, or else its stock query.
   */
  lemma ArrangedContent(rs: seq<string>)
    ensures var out := ArrangedUpTo(rs, 5);
            forall k :: 0 <= k < |out| ==> HoldsSlot(rs, out[k], SlotOf(out[k]))
  {
    var out, ls := ArrangedUpTo(rs, 5), SlotsUpTo(rs, 5);
    SlotsLabelled(rs, 5);
    forall k | 0 <= k < |out| ensures HoldsSlot(rs, out[k], SlotOf(out[k])) {
      SlotOfTagged(out[k], ls[k]);
    }
  }

  /** In the rearranged reasons the slot numbers strictly increase. */
  lemma ArrangedOrdered(rs: seq<string>)
    ensures var out := ArrangedUpTo(rs, 5);
            forall a, b :: 0 <= a < b < |out| ==> SlotOf(out[a]) < SlotOf(out[b])
  {
    var out, ls := ArrangedUpTo(rs, 5), SlotsUpTo(rs, 5);
    SlotsLabelled(rs, 5);
    SlotsIncreasing(rs, 5);
    forall a, b | 0 <= a < b < |out| ensures SlotOf(out[a]) < SlotOf(out[b]) {
      SlotOfTagged(out[a], ls[a]);
      SlotOfTagged(out[b], ls[b]);
    }
  }

  /** Slot `i` appears in the rearranged reasons exactly when some slot from `i` to 5 has a tagged reason. */
  lemma ArrangedNoGaps(rs: seq<string>, i: nat)
    requires 1 <= i <= 5
    ensures var out := ArrangedUpTo(rs, 5);
            (exists k :: 0 <= k < |out| && SlotOf(out[k]) == i) <==> Filled(rs, i)
  {
    var out, ls := ArrangedUpTo(rs, 5), SlotsUpTo(rs, 5);
    SlotsLabelled(rs, 5);
    SlotsNoGaps(rs, 5, i);
    if exists k :: 0 <= k < |out| && SlotOf(out[k]) == i {
      var k :| 0 <= k < |out| && SlotOf(out[k]) == i;
      SlotOfTagged(out[k], ls[k]);
      assert ls[k] in ls;
    }
    if Filled(rs, i) {
      assert i in ls;
      var k :| 0 <= k < |ls| && ls[k] == i;
      SlotOfTagged(out[k], i);
    }
  }

  /**
   * Whether the rearrangement applies: when no reason is tagged 1 to 5 the reasons are left
   * as they were; otherwise every reason that survives is tagged 1 to 5, so reasons numbered
   * above 5 (or not numbered at all) are dropped.
   */
  lemma ReconcileKeepsOrDrops(rs: seq<string>)
    ensures !Filled(rs, 1) ==> Reconcile(rs) == rs
    ensures Filled(rs, 1) ==> forall k :: 0 <= k < |Reconcile(rs)| ==> 1 <= SlotOf(Reconcile(rs)[k]) && Tagged(Reconcile(rs)[k], SlotOf(Reconcile(rs)[k]))
  {
    var out, ls := ArrangedUpTo(rs, 5), SlotsUpTo(rs, 5);
    SlotsLabelled(rs, 5);
    SlotsNoGaps(rs, 5, 1);
    if !Filled(rs, 1) {
      if |out| > 0 {
        SlotsNoGaps(rs, 5, ls[0]);
        assert false;
      }
    } else {
      assert Reconcile(rs) == out;
      forall k | 0 <= k < |out| ensures 1 <= SlotOf(out[k]) && Tagged(out[k], SlotOf(out[k])) {
        SlotOfTagged(out[k], ls[k]);
      }
    }
  }

  /** Each tagged reason that heads its slot (the first tagged `i`, 1 to 5) survives. */
  lemma ReconcileKeepsFirst(rs: seq<string>, i: nat)
    requires 1 <= i <= 5 && Present(rs, i)
    ensures SlotIndex(rs, i).Some? && rs[SlotIndex(rs, i).value] in Reconcile(rs)
  {
    var out, ls := ArrangedUpTo(rs, 5), SlotsUpTo(rs, 5);
    SlotsLabelled(rs, 5);
    SlotsNoGaps(rs, 5, i);
    SlotsNoGaps(rs, 5, 1);
    SlotIndexPresent(rs, i);
    assert Filled(rs, i) && Filled(rs, 1);
    var k :| 0 <= k < |ls| && ls[k] == i;
    assert out[k] == SlotContent(rs, i);
    assert Reconcile(rs) == out;
  }

  /** The rearranged reasons are written `<digits>. <reason>` when the reasons were. */
  lemma ReconcileShaped(rs: seq<string>)
    requires AllShaped(rs)
    ensures AllShaped(Reconcile(rs))
  {
    var out, ls := ArrangedUpTo(rs, 5), SlotsUpTo(rs, 5);
    SlotsLabelled(rs, 5);
    forall k | 0 <= k < |out| ensures RowShaped(out[k]) {
      var i := ls[k];
      var j := SlotIndex(rs, i);
      if j.None? {
        StockEntryTagged(i);
      }
    }
  }
}
