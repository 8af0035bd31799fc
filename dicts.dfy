/** Python dictionaries: insertion-ordered, with unique keys.  A dictionary
    is a sequence of key/value pairs; assigning to a present key replaces
    its value in place, assigning to a new key appends it. */
module Dicts {
  import opened Python

  type Dict<K, V> = seq<(K, V)>

  function Keys<K, V>(d: Dict<K, V>): (ks: seq<K>)
    ensures |ks| == |d|
    ensures forall i :: 0 <= i < |d| ==> ks[i] == d[i].0
  {
    seq(|d|, i requires 0 <= i < |d| => d[i].0)
  }

  /** The keys of a longer prefix extend those of the shorter one. */
  lemma KeysPrefix<K, V>(d: Dict<K, V>, i: nat)
    requires i < |d|
    ensures Keys(d)[..i + 1] == Keys(d)[..i] + [d[i].0]
  {
  }

  function Values<K, V>(d: Dict<K, V>): (vs: seq<V>)
    ensures |vs| == |d|
    ensures forall i :: 0 <= i < |d| ==> vs[i] == d[i].1
  {
    seq(|d|, i requires 0 <= i < |d| => d[i].1)
  }

  predicate Distinct<T(==)>(s: seq<T>)
  {
    forall i, j :: 0 <= i < j < |s| ==> s[i] != s[j]
  }

  /** A prefix of a sequence without repetitions has none either. */
  lemma DistinctPrefix<T>(s: seq<T>, n: nat)
    requires Distinct(s) && n <= |s|
    ensures Distinct(s[..n])
  {
  }

  /** Dropping the first entry keeps the keys unique, and the first key
      is not among the others. */
  lemma UniqueTail<K, V>(d: Dict<K, V>)
    requires d != [] && UniqueKeys(d)
    ensures UniqueKeys(d[1..]) && d[0].0 !in Keys(d[1..])
  {
    assert forall j :: 0 <= j < |d| - 1 ==> Keys(d[1..])[j] == Keys(d)[j + 1];
  }

  /** A new element in front of distinct ones keeps them distinct. */
  lemma DistinctPrepend<T>(x: T, s: seq<T>)
    requires Distinct(s) && x !in s
    ensures Distinct([x] + s)
  {
    forall i, j | 0 <= i < j < |[x] + s| ensures ([x] + s)[i] != ([x] + s)[j] {
      if i > 0 {
        assert ([x] + s)[i] == s[i - 1] && ([x] + s)[j] == s[j - 1];
      }
    }
  }

  /** The invariant of a Python dictionary: no key occurs twice. */
  predicate UniqueKeys<K(==), V>(d: Dict<K, V>)
  {
    Distinct(Keys(d))
  }

  /** `d.get(k)`: the value of the (first) entry with key `k`. */
  function Get<K(==), V>(d: Dict<K, V>, k: K): (r: Option<V>)
    ensures r.Some? <==> k in Keys(d)
    ensures r.Some? ==> exists i :: 0 <= i < |d| && d[i] == (k, r.value)
  {
    if d == [] then None
    else if d[0].0 == k then Some(d[0].1)
    else
      var r := Get(d[1..], k);
      assert r.Some? ==> exists i :: 0 <= i < |d[1..]| && d[1..][i] == (k, r.value);
      assert Keys(d) == [d[0].0] + Keys(d[1..]);
      r
  }

  /** `d[k] = v`. */
  function Put<K(==), V>(d: Dict<K, V>, k: K, v: V): (r: Dict<K, V>)
    ensures Keys(r) == if k in Keys(d) then Keys(d) else Keys(d) + [k]
  {
    if d == [] then [(k, v)]
    else if d[0].0 == k then [(k, v)] + d[1..]
    else
      assert Keys(d) == [d[0].0] + Keys(d[1..]);
      var r := [d[0]] + Put(d[1..], k, v);
      assert Keys(r) == [d[0].0] + Keys(Put(d[1..], k, v));
      r
  }

  lemma {:induction false} GetPut<K, V>(d: Dict<K, V>, k: K, v: V, k': K)
    ensures Get(Put(d, k, v), k') == if k' == k then Some(v) else Get(d, k')
  {
    if d != [] && d[0].0 != k {
      GetPut(d[1..], k, v, k');
    }
  }

  lemma PutUnique<K, V>(d: Dict<K, V>, k: K, v: V)
    requires UniqueKeys(d)
    ensures UniqueKeys(Put(d, k, v))
  {
  }

  /** The mapping a dictionary denotes, forgetting its order. */
  function ToMap<K(==), V>(d: Dict<K, V>): (m: map<K, V>)
    ensures m.Keys == set k | k in Keys(d)
    ensures forall k :: k in m ==> Get(d, k) == Some(m[k])
  {
    map k | k in Keys(d) :: Get(d, k).value
  }

  lemma ToMapPut<K, V>(d: Dict<K, V>, k: K, v: V)
    ensures ToMap(Put(d, k, v)) == ToMap(d)[k := v]
  {
    forall k' | k' in ToMap(Put(d, k, v)) ensures ToMap(Put(d, k, v))[k'] == ToMap(d)[k := v][k'] {
      GetPut(d, k, v, k');
    }
  }

  /** Every value of `Put(d, k, v)` is `v` or a value of `d`. */
  lemma {:induction false} PutValueAt<K, V>(d: Dict<K, V>, k: K, v: V, i: nat)
    requires i < |Put(d, k, v)|
    ensures Put(d, k, v)[i].1 == v || (i < |d| && Put(d, k, v)[i].1 == d[i].1)
  {
    if d != [] && d[0].0 != k && i > 0 {
      PutValueAt(d[1..], k, v, i - 1);
    }
  }

  /** `{k: f(k, v) for k, v in d.items()}` for an `f` that may raise: the
      new values are computed in order and the first error is raised. */
  function TryMap<K, V, W>(d: Dict<K, V>, f: (K, V) -> Result<W>): (r: Result<Dict<K, W>>)
    ensures r.Ok? <==> forall i :: 0 <= i < |d| ==> f(d[i].0, d[i].1).Ok?
    ensures r.Ok? ==> |r.value| == |d| && forall i :: 0 <= i < |d| ==> r.value[i] == (d[i].0, f(d[i].0, d[i].1).value)
    ensures r.Err? ==> exists i :: 0 <= i < |d| && f(d[i].0, d[i].1) == Err(r.error) && FirstFailure(d, f, i)
  {
    if d == [] then Ok([])
    else
      var first :- f(d[0].0, d[0].1);
      var rest := TryMap(d[1..], f);
      if rest.Err? then
        ghost var i :| 0 <= i < |d[1..]| && f(d[1..][i].0, d[1..][i].1) == Err(rest.error) && FirstFailure(d[1..], f, i);
        assert f(d[i + 1].0, d[i + 1].1) == Err(rest.error);
        assert FirstFailure(d, f, i + 1) by {
          forall j | 0 <= j < i + 1 ensures f(d[j].0, d[j].1).Ok? {
            if j > 0 { assert d[j] == d[1..][j - 1]; }
          }
        }
        Err(rest.error)
      else
        Ok([(d[0].0, first)] + rest.value)
  }

  /** Every value before position `i` maps without error. */
  predicate FirstFailure<K, V, W>(d: Dict<K, V>, f: (K, V) -> Result<W>, i: nat)
    requires i <= |d|
  {
    forall j :: 0 <= j < i ==> f(d[j].0, d[j].1).Ok?
  }

  /** The error of `TryMap` is that of the first value that fails. */
  lemma TryMapFails<K, V, W>(d: Dict<K, V>, f: (K, V) -> Result<W>, i: nat)
    requires i < |d| && f(d[i].0, d[i].1).Err? && FirstFailure(d, f, i)
    ensures TryMap(d, f) == Err(f(d[i].0, d[i].1).error)
  {
    var r := TryMap(d, f);
    var k :| 0 <= k < |d| && f(d[k].0, d[k].1) == Err(r.error) && FirstFailure(d, f, k);
    assert k == i;
  }

  /** Pointwise mapped values are what `TryMap` returns. */
  lemma TryMapSucceeds<K, V, W>(d: Dict<K, V>, f: (K, V) -> Result<W>, r: Dict<K, W>)
    requires |r| == |d| && forall i :: 0 <= i < |d| ==> f(d[i].0, d[i].1).Ok? && r[i] == (d[i].0, f(d[i].0, d[i].1).value)
    ensures TryMap(d, f) == Ok(r)
  {
    assert TryMap(d, f).value == r;
  }
  /** A prefix that maps without error maps entry by entry. */
  lemma PrefixMapped<K, V, W>(d: Dict<K, V>, f: (K, V) -> Result<W>, i: nat)
    requires i <= |d| && TryMap(d[..i], f).Ok?
    ensures FirstFailure(d, f, i)
    ensures |TryMap(d[..i], f).value| == i
    ensures forall j :: 0 <= j < i ==> TryMap(d[..i], f).value[j] == (d[j].0, f(d[j].0, d[j].1).value)
  {
    assert forall j :: 0 <= j < i ==> d[..i][j] == d[j];
  }

  /** Mapping one more entry extends the mapped prefix by that entry, and
      an entry that fails after a mapped prefix is the error of the whole
      mapping. */
  lemma TryMapSnoc<K, V, W>(d: Dict<K, V>, f: (K, V) -> Result<W>, i: nat)
    requires i < |d| && TryMap(d[..i], f).Ok?
    ensures f(d[i].0, d[i].1).Err? ==> TryMap(d, f) == Err(f(d[i].0, d[i].1).error)
    ensures f(d[i].0, d[i].1).Ok? ==>
      TryMap(d[..i + 1], f) == Ok(TryMap(d[..i], f).value + [(d[i].0, f(d[i].0, d[i].1).value)])
  {
    PrefixMapped(d, f, i);
    if f(d[i].0, d[i].1).Err? {
      TryMapFails(d, f, i);
    } else {
      TryMapExtend(d, f, i, TryMap(d[..i], f).value);
    }
  }

  lemma TryMapExtend<K, V, W>(d: Dict<K, V>, f: (K, V) -> Result<W>, i: nat, r: Dict<K, W>)
    requires i < |d| && f(d[i].0, d[i].1).Ok? && |r| == i
    requires forall j :: 0 <= j < i ==> f(d[j].0, d[j].1).Ok? && r[j] == (d[j].0, f(d[j].0, d[j].1).value)
    ensures TryMap(d[..i + 1], f) == Ok(r + [(d[i].0, f(d[i].0, d[i].1).value)])
  {
    assert forall j :: 0 <= j < i + 1 ==> d[..i + 1][j] == d[j];
    TryMapSucceeds(d[..i + 1], f, r + [(d[i].0, f(d[i].0, d[i].1).value)]);
  }

  /** Writing position `i` of a sequence that agrees with `t` from `i` on
      extends the written prefix and keeps the agreement after `i`. */
  lemma UpdatePrefix<T>(s: seq<T>, t: seq<T>, i: nat, x: T)
    requires i < |s| == |t| && s[i..] == t[i..]
    ensures s[i] == t[i]
    ensures s[i := x][..i + 1] == s[..i] + [x]
    ensures s[i := x][i + 1..] == t[i + 1..]
  {
    assert s[i] == s[i..][0] == t[i..][0];
    assert s[i + 1..] == s[i..][1..];
    assert t[i + 1..] == t[i..][1..];
  }
}
