/**
 * Python's dict as the models use it: entries kept in insertion order, each
 * key at most once. Assigning to a present key keeps its position; a new key
 * goes to the end; `{**a, **b}` keeps a's order, lets b's values win and
 * appends b's new keys in b's order.
 */
module OrderedDict {
  import opened Wrappers

  datatype Dict<K(==), V> = Dict(entries: seq<(K, V)>)

  function Empty<K(==), V>(): Dict<K, V> { Dict([]) }

  function Keys<K(==), V>(d: Dict<K, V>): (ks: seq<K>)
    ensures |ks| == |d.entries|
    ensures forall i :: 0 <= i < |ks| ==> ks[i] == d.entries[i].0
  {
    KeysOf(d.entries)
  }

  function KeysOf<K(==), V>(e: seq<(K, V)>): (ks: seq<K>)
    ensures |ks| == |e|
    ensures forall i :: 0 <= i < |ks| ==> ks[i] == e[i].0
  {
    if |e| == 0 then [] else [e[0].0] + KeysOf(e[1..])
  }

  function Values<K(==), V>(d: Dict<K, V>): (vs: seq<V>)
    ensures |vs| == |d.entries|
    ensures forall i :: 0 <= i < |vs| ==> vs[i] == d.entries[i].1
  {
    ValuesOf(d.entries)
  }

  function ValuesOf<K(==), V>(e: seq<(K, V)>): (vs: seq<V>)
    ensures |vs| == |e|
    ensures forall i :: 0 <= i < |vs| ==> vs[i] == e[i].1
  {
    if |e| == 0 then [] else [e[0].1] + ValuesOf(e[1..])
  }

  function Size<K(==), V>(d: Dict<K, V>): nat { |d.entries| }

  /** Every key occurs once. */
  ghost predicate Wf<K, V>(d: Dict<K, V>)
  {
    DistinctKeys(d.entries)
  }

  ghost predicate DistinctKeys<K, V>(e: seq<(K, V)>)
  {
    forall i, j :: 0 <= i < j < |e| ==> e[i].0 != e[j].0
  }

  predicate HasKey<K(==), V>(d: Dict<K, V>, k: K)
  {
    k in Keys(d)
  }

  /** d.get(k): the value stored under k, or None. */
  function Get<K(==), V>(d: Dict<K, V>, k: K): Option<V>
  {
    Find(d.entries, k)
  }

  function Find<K(==), V>(e: seq<(K, V)>, k: K): (r: Option<V>)
  {
    if |e| == 0 then None
    else if e[0].0 == k then Some(e[0].1)
    else Find(e[1..], k)
  }

  /** d[k] = v */
  function Set<K(==), V>(d: Dict<K, V>, k: K, v: V): Dict<K, V>
  {
    Dict(SetIn(d.entries, k, v))
  }

  function SetIn<K(==), V>(e: seq<(K, V)>, k: K, v: V): (r: seq<(K, V)>)
  {
    if |e| == 0 then [(k, v)]
    else if e[0].0 == k then [(k, v)] + e[1..]
    else [e[0]] + SetIn(e[1..], k, v)
  }

  /** del d[k] (or d.pop(k)); a missing key leaves d as it is. */
  function Remove<K(==), V>(d: Dict<K, V>, k: K): Dict<K, V>
  {
    Dict(RemoveIn(d.entries, k))
  }

  function RemoveIn<K(==), V>(e: seq<(K, V)>, k: K): seq<(K, V)>
  {
    if |e| == 0 then []
    else if e[0].0 == k then RemoveIn(e[1..], k)
    else [e[0]] + RemoveIn(e[1..], k)
  }

  /** {**a, **b}: b's entries assigned into a, in b's order. */
  function Merge<K(==), V>(a: Dict<K, V>, b: Dict<K, V>): Dict<K, V>
    decreases |b.entries|
  {
    if |b.entries| == 0 then a
    else Merge(Set(a, b.entries[0].0, b.entries[0].1), Dict(b.entries[1..]))
  }

  /** The keys of ks that are not in ex, in order. */
  function KeysNotIn<K(==)>(ks: seq<K>, ex: seq<K>): (r: seq<K>)
    ensures forall i :: 0 <= i < |r| ==> r[i] in ks && r[i] !in ex
  {
    if |ks| == 0 then []
    else if ks[0] in ex then KeysNotIn(ks[1..], ex)
    else [ks[0]] + KeysNotIn(ks[1..], ex)
  }

  // ---------------------------------------------------------------------------
  // Lookup

  lemma {:induction false} FindSomeIffKey<K, V>(e: seq<(K, V)>, k: K)
    ensures Find(e, k).Some? <==> k in KeysOf(e)
  {
    if |e| > 0 && e[0].0 != k {
      FindSomeIffKey(e[1..], k);
      assert KeysOf(e) == [e[0].0] + KeysOf(e[1..]);
    }
  }

  /** A key is present exactly when get finds a value. */
  lemma GetSomeIffKey<K, V>(d: Dict<K, V>, k: K)
    ensures Get(d, k).Some? <==> HasKey(d, k)
  {
    FindSomeIffKey(d.entries, k);
  }

  /** In a well-formed dict, get returns the value stored at the key's position. */
  lemma {:induction false} FindAt<K, V>(e: seq<(K, V)>, i: nat)
    requires DistinctKeys(e) && i < |e|
    ensures Find(e, e[i].0) == Some(e[i].1)
  {
    if i > 0 {
      assert e[0].0 != e[i].0;
      assert e[1..][i - 1] == e[i];
      FindAt(e[1..], i - 1);
    }
  }

  // ---------------------------------------------------------------------------
  // Assignment

  lemma {:induction false} SetInKeys<K, V>(e: seq<(K, V)>, k: K, v: V)
    ensures KeysOf(SetIn(e, k, v)) == if k in KeysOf(e) then KeysOf(e) else KeysOf(e) + [k]
  {
    if |e| > 0 && e[0].0 != k {
      SetInKeys(e[1..], k, v);
      assert KeysOf(e) == [e[0].0] + KeysOf(e[1..]);
      assert KeysOf(SetIn(e, k, v)) == [e[0].0] + KeysOf(SetIn(e[1..], k, v));
    } else if |e| > 0 {
      assert KeysOf(SetIn(e, k, v)) == [k] + KeysOf(e[1..]);
      assert KeysOf(e) == [e[0].0] + KeysOf(e[1..]);
    }
  }

  /** Assignment keeps the key order; a new key is appended. */
  lemma SetKeys<K, V>(d: Dict<K, V>, k: K, v: V)
    ensures Keys(Set(d, k, v)) == if HasKey(d, k) then Keys(d) else Keys(d) + [k]
  {
    SetInKeys(d.entries, k, v);
  }

  lemma {:induction false} SetInFind<K, V>(e: seq<(K, V)>, k: K, v: V, j: K)
    ensures Find(SetIn(e, k, v), j) == if j == k then Some(v) else Find(e, j)
  {
    if |e| > 0 && e[0].0 != k {
      SetInFind(e[1..], k, v, j);
    }
  }

  /** After d[k] = v, get(k) is v and every other key reads as before. */
  lemma SetGet<K, V>(d: Dict<K, V>, k: K, v: V, j: K)
    ensures Get(Set(d, k, v), j) == if j == k then Some(v) else Get(d, j)
  {
    SetInFind(d.entries, k, v, j);
  }

  lemma SetWf<K, V>(d: Dict<K, V>, k: K, v: V)
    requires Wf(d)
    ensures Wf(Set(d, k, v))
  {
    SetInKeys(d.entries, k, v);
    var r := SetIn(d.entries, k, v);
    assert forall i :: 0 <= i < |r| ==> KeysOf(r)[i] == r[i].0;
  }

  /** Assignment never changes the number of entries for a present key and adds one otherwise. */
  lemma SetSize<K, V>(d: Dict<K, V>, k: K, v: V)
    ensures Size(Set(d, k, v)) == if HasKey(d, k) then Size(d) else Size(d) + 1
  {
    SetKeys(d, k, v);
  }

  // ---------------------------------------------------------------------------
  // Removal

  lemma {:induction false} RemoveInFind<K, V>(e: seq<(K, V)>, k: K, j: K)
    ensures Find(RemoveIn(e, k), j) == if j == k then None else Find(e, j)
  {
    if |e| > 0 {
      RemoveInFind(e[1..], k, j);
    }
  }

  /** After del d[k], k is gone and every other key reads as before. */
  lemma RemoveGet<K, V>(d: Dict<K, V>, k: K, j: K)
    ensures Get(Remove(d, k), j) == if j == k then None else Get(d, j)
  {
    RemoveInFind(d.entries, k, j);
  }

  lemma {:induction false} RemoveInKeys<K, V>(e: seq<(K, V)>, k: K)
    ensures forall j :: j in KeysOf(RemoveIn(e, k)) <==> j in KeysOf(e) && j != k
    ensures |RemoveIn(e, k)| <= |e|
  {
    if |e| > 0 {
      RemoveInKeys(e[1..], k);
      assert KeysOf(e) == [e[0].0] + KeysOf(e[1..]);
      if e[0].0 != k {
        assert KeysOf(RemoveIn(e, k)) == [e[0].0] + KeysOf(RemoveIn(e[1..], k));
      }
    }
  }

  lemma {:induction false} RemoveInDistinct<K, V>(e: seq<(K, V)>, k: K)
    requires DistinctKeys(e)
    ensures DistinctKeys(RemoveIn(e, k))
  {
    if |e| > 0 {
      assert DistinctKeys(e[1..]);
      RemoveInDistinct(e[1..], k);
      if e[0].0 != k {
        RemoveInKeys(e[1..], k);
        var t := RemoveIn(e[1..], k);
        forall i | 0 <= i < |t| ensures t[i].0 != e[0].0 {
          assert KeysOf(t)[i] == t[i].0;
          assert t[i].0 in KeysOf(e[1..]);
          var m :| 0 <= m < |e[1..]| && KeysOf(e[1..])[m] == t[i].0;
          assert e[1..][m] == e[m + 1];
        }
      }
    }
  }

  /** Removing a key keeps the other keys in their order. */
  lemma RemoveKeysOrder<K, V>(d: Dict<K, V>, k: K)
    ensures Keys(Remove(d, k)) == KeysNotIn(Keys(d), [k])
  {
    RemoveInKeysOrder(d.entries, k);
  }

  lemma {:induction false} RemoveInKeysOrder<K, V>(e: seq<(K, V)>, k: K)
    ensures KeysOf(RemoveIn(e, k)) == KeysNotIn(KeysOf(e), [k])
    decreases |e|
  {
    if |e| > 0 {
      RemoveInKeysOrder(e[1..], k);
      assert KeysOf(e)[1..] == KeysOf(e[1..]);
      if e[0].0 != k {
        assert KeysOf([e[0]] + RemoveIn(e[1..], k)) == [e[0].0] + KeysOf(RemoveIn(e[1..], k));
      }
    }
  }

  lemma RemoveWf<K, V>(d: Dict<K, V>, k: K)
    requires Wf(d)
    ensures Wf(Remove(d, k))
  {
    RemoveInDistinct(d.entries, k);
  }

  /** Removal deletes exactly the key k. */
  lemma RemoveKeys<K, V>(d: Dict<K, V>, k: K)
    ensures forall j :: HasKey(Remove(d, k), j) <==> HasKey(d, j) && j != k
  {
    RemoveInKeys(d.entries, k);
  }

  lemma {:induction false} RemoveInAbsent<K, V>(e: seq<(K, V)>, k: K)
    requires k !in KeysOf(e)
    ensures RemoveIn(e, k) == e
  {
    if |e| > 0 {
      assert KeysOf(e) == [e[0].0] + KeysOf(e[1..]);
      RemoveInAbsent(e[1..], k);
    }
  }

  lemma {:induction false} RemoveInSize<K, V>(e: seq<(K, V)>, k: K)
    requires DistinctKeys(e) && k in KeysOf(e)
    ensures |RemoveIn(e, k)| == |e| - 1
  {
    assert KeysOf(e) == [e[0].0] + KeysOf(e[1..]);
    assert DistinctKeys(e[1..]);
    if e[0].0 == k {
      assert k !in KeysOf(e[1..]);
      RemoveInAbsent(e[1..], k);
    } else {
      RemoveInSize(e[1..], k);
    }
  }

  /** Removing a present key of a well-formed dict drops exactly one entry. */
  lemma RemoveSize<K, V>(d: Dict<K, V>, k: K)
    requires Wf(d) && HasKey(d, k)
    ensures Size(Remove(d, k)) == Size(d) - 1
  {
    RemoveInSize(d.entries, k);
  }

  // ---------------------------------------------------------------------------
  // Merge

  /** In {**a, **b}, the value of a key of b is b's; any other key reads as in a. */
  lemma {:induction false} MergeGet<K, V>(a: Dict<K, V>, b: Dict<K, V>, k: K)
    requires Wf(b)
    ensures Get(Merge(a, b), k) == if HasKey(b, k) then Get(b, k) else Get(a, k)
    decreases |b.entries|
  {
    if |b.entries| > 0 {
      var h := b.entries[0];
      var t := Dict(b.entries[1..]);
      assert Wf(t);
      MergeGet(Set(a, h.0, h.1), t, k);
      SetGet(a, h.0, h.1, k);
      assert Keys(b) == [h.0] + Keys(t);
      if HasKey(t, k) {
        assert k != h.0 by {
          var m :| 0 <= m < |Keys(t)| && Keys(t)[m] == k;
          assert b.entries[m + 1].0 == k;
        }
      }
    }
  }

  /** The keys of {**a, **b}: a's keys in a's order, then b's new keys in b's order. */
  lemma {:induction false} MergeKeys<K, V>(a: Dict<K, V>, b: Dict<K, V>)
    requires Wf(b)
    ensures Keys(Merge(a, b)) == Keys(a) + KeysNotIn(Keys(b), Keys(a))
    decreases |b.entries|
  {
    if |b.entries| > 0 {
      var h := b.entries[0];
      var t := Dict(b.entries[1..]);
      assert Wf(t);
      MergeKeys(Set(a, h.0, h.1), t);
      MergeKeysStep(a, b);
    }
  }

  lemma MergeKeysStep<K, V>(a: Dict<K, V>, b: Dict<K, V>)
    requires Wf(b) && |b.entries| > 0
    ensures var a' := Set(a, b.entries[0].0, b.entries[0].1);
            var t := Dict(b.entries[1..]);
            Keys(a') + KeysNotIn(Keys(t), Keys(a')) == Keys(a) + KeysNotIn(Keys(b), Keys(a))
  {
    var h := b.entries[0];
    var kt := Keys(Dict(b.entries[1..]));
    SetKeys(a, h.0, h.1);
    HeadNotInTail(b);
    assert Keys(b) == [h.0] + kt;
    if HasKey(a, h.0) {
      KeysNotInPresent(Keys(a), h.0, kt);
    } else {
      KeysNotInAbsent(Keys(a), h.0, kt);
    }
  }

  /** A key already excluded is skipped. */
  lemma KeysNotInPresent<K>(ka: seq<K>, k: K, kt: seq<K>)
    requires k in ka
    ensures ka + KeysNotIn(kt, ka) == ka + KeysNotIn([k] + kt, ka)
  {
    assert ([k] + kt)[1..] == kt;
  }

  /** A new key is kept, and excluding it from the rest changes nothing when the rest lacks it. */
  lemma KeysNotInAbsent<K>(ka: seq<K>, k: K, kt: seq<K>)
    requires k !in ka && k !in kt
    ensures (ka + [k]) + KeysNotIn(kt, ka + [k]) == ka + KeysNotIn([k] + kt, ka)
  {
    assert ([k] + kt)[1..] == kt;
    var rest := KeysNotIn(kt, ka);
    assert KeysNotIn([k] + kt, ka) == [k] + rest;
    KeysNotInExtend(kt, ka, k);
    assert (ka + [k]) + rest == ka + ([k] + rest);
  }

  /** In a well-formed dict the first key does not occur again. */
  lemma HeadNotInTail<K, V>(b: Dict<K, V>)
    requires Wf(b) && |b.entries| > 0
    ensures b.entries[0].0 !in Keys(Dict(b.entries[1..]))
  {
  }

  /** Excluding one more key that the list does not contain changes nothing. */
  lemma {:induction false} KeysNotInExtend<K>(ks: seq<K>, ex: seq<K>, k: K)
    requires k !in ks
    ensures KeysNotIn(ks, ex + [k]) == KeysNotIn(ks, ex)
  {
    if |ks| > 0 {
      KeysNotInExtend(ks[1..], ex, k);
    }
  }
}
