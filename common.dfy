/** Optional values and error results shared by every extractor module. */
module Common {
  /** A Python value that may be `None`. */
  datatype Option<T> = None | Some(value: T)

  /** The outcome of an operation that may raise: a value, or the exception's message. */
  datatype Result<T> = Ok(value: T) | Err(msg: string)

  /** The value, or `d` when there is none. */
  function OrElse<T>(v: Option<T>, d: T): T { if v.Some? then v.value else d }

  /** Python truthiness of an optional string: neither `None` nor empty. */
  predicate Truthy(v: Option<string>) { v.Some? && v.value != "" }

  // ---------------------------------------------------------------- filtering loops

  /** The list `reasons.append` adds to: one entry for a kept item, none otherwise. */
  function Kept(r: Option<string>): seq<string> { if r.Some? then [r.value] else [] }

  /** The entries `keep` yields for the first `k` items of `xs`, in order. */
  function KeptUpTo<X>(keep: X -> Option<string>, xs: seq<X>, k: nat): seq<string>
    requires k <= |xs|
  {
    if k == 0 then [] else KeptUpTo(keep, xs, k - 1) + Kept(keep(xs[k - 1]))
  }

  /** Filtering `[x] + xs` is the entry for `x` followed by the entries for `xs`. */
  lemma {:induction false} KeptCons<X>(keep: X -> Option<string>, x: X, xs: seq<X>, k: nat)
    requires k <= |xs|
    ensures KeptUpTo(keep, [x] + xs, k + 1) == Kept(keep(x)) + KeptUpTo(keep, xs, k)
  {
    if k > 0 {
      KeptCons(keep, x, xs, k - 1);
      assert ([x] + xs)[k] == xs[k - 1];
    }
  }

  /** Filtering the slice `xs[i..e]` is the entry for `xs[i]` followed by the entries for `xs[i + 1..e]`. */
  lemma KeptSlice<X>(keep: X -> Option<string>, xs: seq<X>, i: nat, e: nat)
    requires i < e <= |xs|
    ensures KeptUpTo(keep, xs[i..e], e - i) == Kept(keep(xs[i])) + KeptUpTo(keep, xs[i + 1..e], e - i - 1)
  {
    assert xs[i..e] == [xs[i]] + xs[i + 1..e];
    KeptCons(keep, xs[i], xs[i + 1..e], e - i - 1);
  }

  /** A loop over `xs` that appends what `keep` yields for each item. */
  method CollectKept<X>(keep: X -> Option<string>, xs: seq<X>) returns (out: seq<string>)
    ensures out == KeptUpTo(keep, xs, |xs|)
  {
    out := [];
    var k := 0;
    while k < |xs|
      invariant k <= |xs|
      invariant out == KeptUpTo(keep, xs, k)
    {
      var r := keep(xs[k]);
      if r.Some? {
        out := out + [r.value];
      }
      k := k + 1;
    }
  }
}
