/** Python dicts as insertion-ordered sequences of (key, value) items. */
module Dicts {
  import opened Values

  /** The keys of a dict, in insertion order. */
  function Keys<V>(m: seq<(string, V)>): (ks: seq<string>)
    ensures |ks| == |m|
    ensures forall i :: 0 <= i < |m| ==> ks[i] == m[i].0
  {
    if m == [] then [] else [m[0].0] + Keys(m[1..])
  }

  /** A Python dict never holds a key twice. */
  predicate UniqueKeys<V>(m: seq<(string, V)>)
  {
    Distinct(Keys(m))
  }

  predicate Distinct(ks: seq<string>)
  {
    forall i, j :: 0 <= i < j < |ks| ==> ks[i] != ks[j]
  }

  /** `d.get(k)`: the value stored under `k`, if any. */
  function Get<V>(m: seq<(string, V)>, k: string): (r: Option<V>)
    ensures r.None? <==> k !in Keys(m)
  {
    if m == [] then None
    else if m[0].0 == k then Some(m[0].1)
    else Get(m[1..], k)
  }

  /** `d[k] = v`: an existing key keeps its place and takes the new value,
      a new key is appended. */
  function Put<V>(m: seq<(string, V)>, k: string, v: V): (r: seq<(string, V)>)
    ensures Keys(r) == if k in Keys(m) then Keys(m) else Keys(m) + [k]
    ensures Get(r, k) == Some(v)
    ensures forall k' :: k' != k ==> Get(r, k') == Get(m, k')
  {
    if m == [] then [(k, v)]
    else
      assert Keys(m) == [m[0].0] + Keys(m[1..]);
      if m[0].0 == k then
        var r := [(k, v)] + m[1..];
        assert r[1..] == m[1..];
        r
      else
        var t := Put(m[1..], k, v);
        var r := [m[0]] + t;
        assert r[1..] == t;
        assert Keys(r) == [m[0].0] + Keys(t);
        assert k in Keys(m) <==> k in Keys(m[1..]);
        assert forall k' :: Get(r, k') == if k' == m[0].0 then Some(m[0].1) else Get(t, k');
        r
  }

  /** `d[k] = v` never duplicates a key. */
  lemma PutUnique<V>(m: seq<(string, V)>, k: string, v: V)
    ensures UniqueKeys(m) ==> UniqueKeys(Put(m, k, v))
  {
    var ks := Keys(m);
    if k !in ks {
      var ks' := ks + [k];
      assert forall i :: 0 <= i < |ks| ==> ks'[i] == ks[i];
    }
  }

  /** `m.update(o)`: the items of `o` are put into `m` one after the other. */
  function Update<V>(m: seq<(string, V)>, o: seq<(string, V)>): (r: seq<(string, V)>)
    ensures UniqueKeys(m) ==> UniqueKeys(r)
    ensures forall k :: k in Keys(r) <==> k in Keys(m) || k in Keys(o)
    decreases |o|
  {
    if o == [] then m
    else
      PutUnique(m, o[0].0, o[0].1);
      Update(Put(m, o[0].0, o[0].1), o[1..])
  }

  /** The keys of `ks` that are not in `existing`, in their order in `ks`. */
  function Fresh(ks: seq<string>, existing: seq<string>): (r: seq<string>)
    ensures forall k :: k in r <==> k in ks && k !in existing
  {
    if ks == [] then []
    else (if ks[0] in existing then [] else [ks[0]]) + Fresh(ks[1..], existing)
  }

  /** Looking up the key stored at position `i` of a dict finds the value stored there. */
  lemma GetAt<V>(m: seq<(string, V)>, i: nat)
    requires UniqueKeys(m) && i < |m|
    ensures Get(m, m[i].0) == Some(m[i].1)
  {
    if i > 0 {
      assert m[1..][i - 1] == m[i];
      GetAt(m[1..], i - 1);
    }
  }

  lemma FreshExtended(ks: seq<string>, existing: seq<string>, x: string)
    requires x !in ks
    ensures Fresh(ks, existing + [x]) == Fresh(ks, existing)
  {
    if ks != [] {
      FreshExtended(ks[1..], existing, x);
    }
  }

  lemma UniqueKeysTail<V>(m: seq<(string, V)>)
    requires UniqueKeys(m) && m != []
    ensures UniqueKeys(m[1..]) && m[0].0 !in Keys(m[1..])
  {
    var ks := Keys(m);
    assert ks == [m[0].0] + Keys(m[1..]);
    assert forall j :: 0 <= j < |ks| - 1 ==> Keys(m[1..])[j] == ks[j + 1];
  }

  /** `dict.update` keeps the keys of `m` in place and appends the keys of `o`
      that `m` lacks, in the order of `o`. */
  lemma {:induction false} UpdateKeys<V>(m: seq<(string, V)>, o: seq<(string, V)>)
    requires UniqueKeys(o)
    ensures Keys(Update(m, o)) == Keys(m) + Fresh(Keys(o), Keys(m))
    decreases |o|
  {
    if o != [] {
      var k := o[0].0;
      var m' := Put(m, k, o[0].1);
      UniqueKeysTail(o);
      UpdateKeys(m', o[1..]);
      UpdateKeysStep(Keys(m), Keys(m'), k, Keys(o), Keys(o[1..]));
    }
  }

  lemma UpdateKeysStep(km: seq<string>, km': seq<string>, k: string, ko: seq<string>, rest: seq<string>)
    requires ko == [k] + rest && k !in rest
    requires km' == if k in km then km else km + [k]
    ensures km' + Fresh(rest, km') == km + Fresh(ko, km)
  {
    if k !in km {
      FreshExtended(rest, km, k);
    }
  }

  /** After `m.update(o)` a key holds its value from `o` if `o` has it,
      and its value from `m` otherwise. */
  lemma {:induction false} UpdateGet<V>(m: seq<(string, V)>, o: seq<(string, V)>, k: string)
    requires UniqueKeys(o)
    ensures Get(Update(m, o), k) == if k in Keys(o) then Get(o, k) else Get(m, k)
    decreases |o|
  {
    if o != [] {
      UniqueKeysTail(o);
      assert Keys(o) == [o[0].0] + Keys(o[1..]);
      UpdateGet(Put(m, o[0].0, o[0].1), o[1..], k);
    }
  }
}
