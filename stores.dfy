/**
 * Dictionaries filled by successive conditional stores, `if match: d[key] = value`, onto
 * "null" defaults: the stores, each key written by its own store, and the fold of a list of entries.
 */
module Stores {
  import opened Common

  /** The keys of the entries `fs`. */
  function KeySet<F(==)>(fs: seq<F>, key: F -> string): set<string>
  {
    set f | f in fs :: key(f)
  }

  /** The initial `result`: "null" for every key. */
  function Defaults<F(==)>(fs: seq<F>, key: F -> string): (r: map<string, string>)
    ensures r.Keys == KeySet(fs, key)
    ensures forall k :: k in r ==> r[k] == "null"
  {
    map k | k in KeySet(fs, key) :: "null"
  }

  /** `if match: result[key] = value` */
  function StoreIf(d: map<string, string>, key: string, v: Option<string>): map<string, string>
  {
    if v.Some? then d[key := v.value] else d
  }

  /** A store adds its key when it matched, writes only that key, and leaves the others alone. */
  lemma StoreIfIs(d: map<string, string>, key: string, v: Option<string>)
    ensures StoreIf(d, key, v).Keys == d.Keys + (if v.Some? then {key} else {})
    ensures key in StoreIf(d, key, v) ==> StoreIf(d, key, v)[key] == (if v.Some? then v.value else d[key])
    ensures forall k :: k in d && k != key ==> StoreIf(d, key, v)[k] == d[k]
  {
  }

  /** A store onto a key already there keeps the keys. */
  lemma StoreIfKeys(d: map<string, string>, key: string, v: Option<string>)
    requires key in d
    ensures StoreIf(d, key, v).Keys == d.Keys
  {
  }

  /** A store's value, or "null" when it did not match. */
  function OrNull(v: Option<string>): string
  {
    if v.Some? then v.value else "null"
  }

  /** The defaults after the stores of the first `n` entries. */
  function Stored<F(==)>(fs: seq<F>, key: F -> string, value: F -> Option<string>, n: nat): map<string, string>
    requires n <= |fs|
  {
    if n == 0 then Defaults(fs, key) else StoreIf(Stored(fs, key, value, n - 1), key(fs[n - 1]), value(fs[n - 1]))
  }

  /** The stores keep the keys of the defaults. */
  lemma {:induction false} StoredKeys<F>(fs: seq<F>, key: F -> string, value: F -> Option<string>, n: nat)
    requires n <= |fs|
    ensures Stored(fs, key, value, n).Keys == KeySet(fs, key)
  {
    if n > 0 {
      StoredKeys(fs, key, value, n - 1);
      StoreIfIs(Stored(fs, key, value, n - 1), key(fs[n - 1]), value(fs[n - 1]));
      assert fs[n - 1] in fs;
    }
  }

  /** With distinct keys, every store writes its own key: an entry stored is its value, one not yet stored "null". */
  lemma {:induction false} StoredIs<F>(fs: seq<F>, key: F -> string, value: F -> Option<string>, n: nat)
    requires n <= |fs|
    requires forall i, j :: 0 <= i < j < |fs| ==> key(fs[i]) != key(fs[j])
    ensures forall j :: 0 <= j < |fs| ==> key(fs[j]) in Stored(fs, key, value, n)
    ensures forall j :: 0 <= j < n ==> Stored(fs, key, value, n)[key(fs[j])] == OrNull(value(fs[j]))
    ensures forall j :: n <= j < |fs| ==> Stored(fs, key, value, n)[key(fs[j])] == "null"
  {
    StoredKeys(fs, key, value, n);
    forall j | 0 <= j < |fs|
      ensures key(fs[j]) in Stored(fs, key, value, n)
    {
      assert fs[j] in fs;
    }
    if n > 0 {
      var d := Stored(fs, key, value, n - 1);
      var k := key(fs[n - 1]);
      StoredIs(fs, key, value, n - 1);
      StoreIfIs(d, k, value(fs[n - 1]));
      assert Stored(fs, key, value, n) == StoreIf(d, k, value(fs[n - 1]));
      forall j | 0 <= j < n - 1
        ensures Stored(fs, key, value, n)[key(fs[j])] == OrNull(value(fs[j]))
      {
        assert key(fs[j]) != k;
      }
      forall j | n <= j < |fs|
        ensures Stored(fs, key, value, n)[key(fs[j])] == "null"
      {
        assert key(fs[j]) != k;
      }
    }
  }

  /**
   * One store, `match = re.search(...); if match: result[key] = ...`, of entry `f`, the
   * `n`-th of the list, the match read through `value`.
   */
  method StoreNext<F>(fs: seq<F>, key: F -> string, value: F -> Option<string>, n: nat, f: F, d: map<string, string>)
    returns (r: map<string, string>)
    requires n < |fs| && fs[n] == f && d == Stored(fs, key, value, n)
    ensures r == Stored(fs, key, value, n + 1)
  {
    var v := value(f);
    r := d;
    if v.Some? {
      r := r[key(f) := v.value];
    }
  }
}
