/**
 * A Python `dict` whose iteration order matters: a sequence of key/value pairs
 * in insertion order with distinct keys. Assigning to an existing key keeps
 * its position; assigning to a new key appends it; `del` removes it.
 */
module OrderedMap {
  import opened Wrappers

  type OMap<K, V> = seq<(K, V)>

  function Keys<K, V>(m: OMap<K, V>): (ks: seq<K>)
    ensures |ks| == |m|
    ensures forall i :: 0 <= i < |m| ==> ks[i] == m[i].0
  {
    seq(|m|, i requires 0 <= i < |m| => m[i].0)
  }

  function Values<K, V>(m: OMap<K, V>): (vs: seq<V>)
    ensures |vs| == |m|
    ensures forall i :: 0 <= i < |m| ==> vs[i] == m[i].1
  {
    seq(|m|, i requires 0 <= i < |m| => m[i].1)
  }

  /** No key occurs twice. */
  ghost predicate Distinct<K, V>(m: OMap<K, V>)
  {
    forall i, j :: 0 <= i < j < |m| ==> m[i].0 != m[j].0
  }

  predicate HasKey<K(==), V>(m: OMap<K, V>, k: K)
  {
    exists i :: 0 <= i < |m| && m[i].0 == k
  }

  /** The position of `k`, if it is a key. */
  function IndexOf<K(==), V>(m: OMap<K, V>, k: K): (r: Option<nat>)
    ensures r.Some? ==> r.value < |m| && m[r.value].0 == k
    ensures r.Some? ==> forall j :: 0 <= j < r.value ==> m[j].0 != k
    ensures r.None? <==> !HasKey(m, k)
  {
    if m == [] then None
    else if m[0].0 == k then Some(0)
    else
      var r := IndexOf(m[1..], k);
      assert HasKey(m, k) ==> HasKey(m[1..], k) by {
        if HasKey(m, k) {
          var i :| 0 <= i < |m| && m[i].0 == k;
          assert m[1..][i - 1].0 == k;
        }
      }
      if r.Some? then Some(r.value + 1) else None
  }

  /** `m.get(k)`. */
  function Get<K(==), V>(m: OMap<K, V>, k: K): (r: Option<V>)
    ensures r.Some? <==> HasKey(m, k)
    ensures r.Some? ==> exists i :: 0 <= i < |m| && m[i] == (k, r.value)
  {
    var i := IndexOf(m, k);
    if i.Some? then Some(m[i.value].1) else None
  }

  lemma GetAt<K, V>(m: OMap<K, V>, i: nat)
    requires Distinct(m) && i < |m|
    ensures Get(m, m[i].0) == Some(m[i].1)
  {
    var j := IndexOf(m, m[i].0);
    assert j.Some?;
  }

  /** `m[k] = v`. */
  function Put<K(==), V>(m: OMap<K, V>, k: K, v: V): (r: OMap<K, V>)
    ensures HasKey(m, k) ==> |r| == |m| && Keys(r) == Keys(m)
    ensures !HasKey(m, k) ==> r == m + [(k, v)]
    ensures forall i :: 0 <= i < |m| && m[i].0 != k ==> r[i] == m[i]
    ensures forall i :: 0 <= i < |m| && m[i].0 == k ==> r[i] == (k, v)
    ensures Distinct(m) ==> Distinct(r)
  {
    if HasKey(m, k) then
      seq(|m|, i requires 0 <= i < |m| => if m[i].0 == k then (k, v) else m[i])
    else m + [(k, v)]
  }

  lemma PutGet<K, V>(m: OMap<K, V>, k: K, v: V, k': K)
    requires Distinct(m)
    ensures Get(Put(m, k, v), k') == if k' == k then Some(v) else Get(m, k')
  {
    var r := Put(m, k, v);
    if k' == k {
      var i :| 0 <= i < |r| && r[i].0 == k;
      GetAt(r, i);
    } else if HasKey(m, k') {
      var i :| 0 <= i < |m| && m[i].0 == k';
      GetAt(r, i);
      GetAt(m, i);
    } else {
      assert !HasKey(r, k');
    }
  }

  /** Writing back the value a key already has leaves the map as it was. */
  lemma PutCurrent<K, V>(m: OMap<K, V>, k: K)
    requires Distinct(m) && HasKey(m, k)
    ensures Put(m, k, Get(m, k).value) == m
  {
    var r := Put(m, k, Get(m, k).value);
    forall i | 0 <= i < |m| && m[i].0 == k ensures r[i] == m[i] {
      GetAt(m, i);
    }
  }

  /** `del m[k]` when `k` is a key; the map itself otherwise. */
  function Remove<K(==), V>(m: OMap<K, V>, k: K): (r: OMap<K, V>)
    ensures !HasKey(r, k)
    ensures forall i :: 0 <= i < |r| ==> r[i] in m
    ensures forall i :: 0 <= i < |m| && m[i].0 != k ==> m[i] in r
    ensures !HasKey(m, k) ==> r == m
    ensures Distinct(m) ==> Distinct(r)
    ensures |r| <= |m|
  {
    if m == [] then []
    else if m[0].0 == k then Remove(m[1..], k)
    else
      var t := Remove(m[1..], k);
      RemoveCons(m, k, t);
      [m[0]] + t
  }

  /** In a map without duplicate keys, removing a key drops exactly its entry and keeps the others in their order. */
  lemma {:induction false} RemoveKeepsOrder<K, V>(m: OMap<K, V>, k: K)
    requires Distinct(m) && HasKey(m, k)
    ensures var i := IndexOf(m, k).value; Remove(m, k) == m[..i] + m[i + 1..]
    decreases |m|, 1
  {
    if m[0].0 == k {
      RemoveHead(m, k);
      assert m[..0] + m[1..] == m[1..];
    } else {
      RemoveKeepsOrderTail(m, k);
    }
  }

  /** `RemoveKeepsOrder` when the key is not the first one. */
  lemma {:induction false} RemoveKeepsOrderTail<K, V>(m: OMap<K, V>, k: K)
    requires Distinct(m) && HasKey(m, k) && m[0].0 != k
    ensures var i := IndexOf(m, k).value; Remove(m, k) == m[..i] + m[i + 1..]
    decreases |m|, 0
  {
    var t := m[1..];
    DistinctTail(m);
    IndexOfTail(m, k);
    RemoveKeepsOrder(t, k);
    RemoveNotHead(m, k);
    SpliceTail(m, IndexOf(m, k).value, Remove(m, k), Remove(t, k));
  }

  lemma RemoveHead<K, V>(m: OMap<K, V>, k: K)
    requires Distinct(m) && m != [] && m[0].0 == k
    ensures Remove(m, k) == m[1..]
  {
    DistinctTail(m);
  }

  lemma RemoveNotHead<K, V>(m: OMap<K, V>, k: K)
    requires m != [] && m[0].0 != k
    ensures Remove(m, k) == [m[0]] + Remove(m[1..], k)
  {
  }

  lemma IndexOfTail<K, V>(m: OMap<K, V>, k: K)
    requires m != [] && m[0].0 != k && HasKey(m, k)
    ensures IndexOf(m[1..], k).Some? && IndexOf(m, k) == Some(IndexOf(m[1..], k).value + 1)
  {
  }

  /** The tail of a map without duplicate keys has none either, and does not hold the head's key. */
  lemma DistinctTail<K, V>(m: OMap<K, V>)
    requires Distinct(m) && m != []
    ensures Distinct(m[1..]) && !HasKey(m[1..], m[0].0)
  {
    var t := m[1..];
    forall a, b | 0 <= a < b < |t| ensures t[a].0 != t[b].0 {
      assert t[a] == m[a + 1] && t[b] == m[b + 1];
    }
    forall j | 0 <= j < |t| ensures t[j].0 != m[0].0 {
      assert t[j] == m[j + 1];
    }
  }

  /** Dropping position `i` of `s` behind its head `s[0]`. */
  lemma SpliceTail<T>(s: seq<T>, i: nat, r: seq<T>, rt: seq<T>)
    requires 1 <= i < |s|
    requires r == [s[0]] + rt && rt == s[1..][..i - 1] + s[1..][i..]
    ensures r == s[..i] + s[i + 1..]
  {
    assert s[..i] == [s[0]] + s[1..][..i - 1];
    assert s[i + 1..] == s[1..][i..];
  }

  /** The clauses of `Remove` carry over from the tail to a map whose head is kept. */
  lemma RemoveCons<K, V>(m: OMap<K, V>, k: K, t: OMap<K, V>)
    requires m != [] && m[0].0 != k
    requires !HasKey(t, k) && |t| <= |m| - 1
    requires forall i :: 0 <= i < |t| ==> t[i] in m[1..]
    requires forall i :: 0 <= i < |m| - 1 && m[1..][i].0 != k ==> m[1..][i] in t
    requires !HasKey(m[1..], k) ==> t == m[1..]
    requires Distinct(m[1..]) ==> Distinct(t)
    ensures var r := [m[0]] + t;
      && !HasKey(r, k)
      && (forall i :: 0 <= i < |r| ==> r[i] in m)
      && (forall i :: 0 <= i < |m| && m[i].0 != k ==> m[i] in r)
      && (!HasKey(m, k) ==> r == m)
      && (Distinct(m) ==> Distinct(r))
  {
    var r := [m[0]] + t;
    assert forall i :: 1 <= i < |m| ==> m[i] == m[1..][i - 1];
    assert forall i :: 1 <= i < |r| ==> r[i] == t[i - 1];
    if !HasKey(m, k) {
      forall i | 0 <= i < |m| - 1 ensures m[1..][i].0 != k {
        assert m[1..][i] == m[i + 1];
      }
    }
    if Distinct(m) {
      assert Distinct(m[1..]) by {
        forall i, j | 0 <= i < j < |m| - 1 ensures m[1..][i].0 != m[1..][j].0 {
          assert m[1..][i] == m[i + 1] && m[1..][j] == m[j + 1];
        }
      }
      forall i, j | 0 <= i < j < |r| ensures r[i].0 != r[j].0 {
        if i == 0 {
          assert r[j] in m[1..];
          var q :| 0 <= q < |m| - 1 && m[1..][q] == r[j];
          assert m[q + 1] == r[j];
        }
      }
    }
  }
}
