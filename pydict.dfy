/**
 * Python's `dict` with string keys, as the client uses it for request
 * parameters and headers: entries in insertion order, each key at most once.
 * `d[k] = v` replaces the value of an existing key where it stands and appends
 * a new key at the end, which is what `Set` does.
 */
module PyDict {
  import opened Wrappers

  /** The keys of an entry list, in order. */
  function KeyOrder<V>(entries: seq<(string, V)>): (ks: seq<string>)
    ensures |ks| == |entries|
  {
    if entries == [] then [] else [entries[0].0] + KeyOrder(entries[1..])
  }

  /** The set of keys of an entry list. */
  function Keys<V>(entries: seq<(string, V)>): set<string>
  {
    if entries == [] then {} else {entries[0].0} + Keys(entries[1..])
  }

  /** No key occurs twice. */
  predicate DistinctKeys<V>(entries: seq<(string, V)>)
  {
    entries == [] || (entries[0].0 !in Keys(entries[1..]) && DistinctKeys(entries[1..]))
  }

  /** A dictionary: its entries in insertion order. */
  type Dict<V> = entries: seq<(string, V)> | DistinctKeys(entries) witness []

  /** `d.get(k)`: the value stored under `k`, if any. */
  function Get<V>(d: seq<(string, V)>, k: string): (r: Option<V>)
    ensures r.Some? <==> k in Keys(d)
  {
    if d == [] then None else if d[0].0 == k then Some(d[0].1) else Get(d[1..], k)
  }

  /** `d[k] = v` on a copy of `d`. */
  function Set<V>(d: Dict<V>, k: string, v: V): (r: Dict<V>)
    ensures Get(r, k) == Some(v)
    ensures forall k' :: k' != k ==> Get(r, k') == Get(d, k')
    ensures Keys(r) == Keys(d) + {k}
    ensures KeyOrder(r) == if k in Keys(d) then KeyOrder(d) else KeyOrder(d) + [k]
    ensures k !in Keys(d) ==> r == d + [(k, v)]
  {
    if d == [] then
      var r: seq<(string, V)> := [(k, v)];
      assert r[1..] == [];
      r
    else if d[0].0 == k then
      var r: seq<(string, V)> := [(k, v)] + d[1..];
      assert r[1..] == d[1..];
      r
    else
      var rest := Set(d[1..], k, v);
      var r: seq<(string, V)> := [d[0]] + rest;
      assert r[1..] == rest;
      assert r[0].0 !in Keys(rest);
      assert d == [d[0]] + d[1..];
      r
  }

  /** A key is in `Keys(d)` exactly when some entry has it. */
  lemma {:induction false} KeysAt<V>(d: seq<(string, V)>)
    ensures forall k :: k in Keys(d) <==> exists i :: 0 <= i < |d| && d[i].0 == k
  {
    if d != [] {
      KeysAt(d[1..]);
      forall k | k in Keys(d) ensures exists i :: 0 <= i < |d| && d[i].0 == k {
        if k != d[0].0 {
          assert k in Keys(d[1..]);
          var i :| 0 <= i < |d[1..]| && d[1..][i].0 == k;
          assert d[i + 1].0 == k;
        }
      }
      forall i | 0 <= i < |d| ensures d[i].0 in Keys(d) {
        if i > 0 {
          assert d[1..][i - 1] == d[i];
        }
      }
    }
  }

  /** `DistinctKeys` says that no two entries share a key. */
  lemma {:induction false} DistinctKeysIff<V>(d: seq<(string, V)>)
    ensures DistinctKeys(d) <==> forall i, j :: 0 <= i < j < |d| ==> d[i].0 != d[j].0
  {
    if d != [] {
      DistinctKeysIff(d[1..]);
      KeysAt(d[1..]);
      if DistinctKeys(d) {
        forall i, j | 0 <= i < j < |d| ensures d[i].0 != d[j].0 {
          assert d[j] == d[1..][j - 1];
          if i > 0 {
            assert d[i] == d[1..][i - 1];
          }
        }
      }
      if forall i, j :: 0 <= i < j < |d| ==> d[i].0 != d[j].0 {
        forall i, j | 0 <= i < j < |d[1..]| ensures d[1..][i].0 != d[1..][j].0 {
          assert d[1..][i] == d[i + 1] && d[1..][j] == d[j + 1];
        }
        forall i | 0 <= i < |d[1..]| ensures d[1..][i].0 != d[0].0 {
          assert d[1..][i] == d[i + 1];
        }
      }
    }
  }
}
