/**
 * Python's `dict`, whose iteration order is the order in which keys were
 * first inserted: the app publishes diagnostics and lists analyses in that
 * order, so a plain `map` is not enough.
 */
module OrderedDicts {
  import opened Values

  /** The keys in insertion order, and the value of each. */
  datatype Dict<K, V> = Dict(keys: seq<K>, values: map<K, V>)

  predicate Distinct<K(==)>(s: seq<K>)
  {
    forall i, j :: 0 <= i < j < |s| ==> s[i] != s[j]
  }

  /** Every key is listed once, and exactly the keys with a value are listed. */
  predicate Valid<K, V>(d: Dict<K, V>)
  {
    Distinct(d.keys) && (forall k :: k in d.values ==> k in d.keys) &&
    forall i :: 0 <= i < |d.keys| ==> d.keys[i] in d.values
  }

  /** `{}`. */
  function Empty<K, V>(): (d: Dict<K, V>)
    ensures Valid(d) && |d.keys| == 0 && |d.values| == 0
  {
    Dict([], map[])
  }

  /** `d.get(k)`. */
  function Get<K, V>(d: Dict<K, V>, k: K): Option<V>
  {
    if k in d.values then Some(d.values[k]) else None
  }

  /** `d[k] = v`: a key already present keeps its place, a new key goes last. */
  function Put<K, V>(d: Dict<K, V>, k: K, v: V): (r: Dict<K, V>)
    requires Valid(d)
    ensures Valid(r)
    ensures r.values == d.values[k := v]
    ensures k in d.values ==> r.keys == d.keys
    ensures k !in d.values ==> r.keys == d.keys + [k]
  {
    Dict(if k in d.values then d.keys else d.keys + [k], d.values[k := v])
  }

  /** `s` without `k`, the rest in the same order. */
  function Remove<K(==)>(s: seq<K>, k: K): seq<K>
  {
    if s == [] then []
    else (if s[0] == k then [] else [s[0]]) + Remove(s[1..], k)
  }

  lemma {:induction false} RemoveMembers<K>(s: seq<K>, k: K)
    ensures forall x :: x in Remove(s, k) <==> x in s && x != k
    ensures forall i :: 0 <= i < |Remove(s, k)| ==> Remove(s, k)[i] in s && Remove(s, k)[i] != k
  {
    if s != [] {
      RemoveMembers(s[1..], k);
    }
    forall i | 0 <= i < |Remove(s, k)|
      ensures Remove(s, k)[i] in s && Remove(s, k)[i] != k
    {
      assert Remove(s, k)[i] in Remove(s, k);
    }
  }

  lemma {:induction false} RemoveDistinct<K>(s: seq<K>, k: K)
    requires Distinct(s)
    ensures Distinct(Remove(s, k))
  {
    if s != [] {
      assert Distinct(s[1..]) by {
        forall i, j | 0 <= i < j < |s[1..]|
          ensures s[1..][i] != s[1..][j]
        {
          assert s[1..][i] == s[i + 1] && s[1..][j] == s[j + 1];
        }
      }
      RemoveDistinct(s[1..], k);
      RemoveMembers(s[1..], k);
      var rest := Remove(s[1..], k);
      assert s[0] !in s[1..] by {
        forall i | 0 <= i < |s[1..]|
          ensures s[1..][i] != s[0]
        {
          assert s[1..][i] == s[i + 1];
        }
      }
      var head := if s[0] == k then [] else [s[0]];
      forall i, j | 0 <= i < j < |head + rest|
        ensures (head + rest)[i] != (head + rest)[j]
      {
        if i < |head| {
          assert (head + rest)[j] in rest;
        }
      }
    }
  }

  /** `d.pop(k, None)`: the key and its value go, the other keys keep their order. */
  function Pop<K, V>(d: Dict<K, V>, k: K): (r: Dict<K, V>)
    requires Valid(d)
    ensures Valid(r)
    ensures r.values == d.values - {k}
    ensures r.keys == Remove(d.keys, k)
  {
    RemoveMembers(d.keys, k);
    RemoveDistinct(d.keys, k);
    Dict(Remove(d.keys, k), d.values - {k})
  }

  /** `list(d.values())`. */
  function ValueList<K, V>(d: Dict<K, V>): (r: seq<V>)
    requires Valid(d)
    ensures |r| == |d.keys|
    ensures forall i :: 0 <= i < |d.keys| ==> r[i] == d.values[d.keys[i]]
  {
    seq(|d.keys|, i requires 0 <= i < |d.keys| => d.values[d.keys[i]])
  }

  /** `list(d.items())`. */
  function Items<K, V>(d: Dict<K, V>): (r: seq<(K, V)>)
    requires Valid(d)
    ensures |r| == |d.keys|
    ensures forall i :: 0 <= i < |d.keys| ==> r[i] == (d.keys[i], d.values[d.keys[i]])
  {
    seq(|d.keys|, i requires 0 <= i < |d.keys| => (d.keys[i], d.values[d.keys[i]]))
  }

  /** Putting a key and then reading it back gives the value put; other keys are untouched. */
  lemma PutGet<K, V>(d: Dict<K, V>, k: K, v: V, other: K)
    requires Valid(d)
    ensures Get(Put(d, k, v), k) == Some(v)
    ensures other != k ==> Get(Put(d, k, v), other) == Get(d, other)
  {
  }

  /** After a pop the key is gone and the other keys are untouched. */
  lemma PopGet<K, V>(d: Dict<K, V>, k: K, other: K)
    requires Valid(d)
    ensures Get(Pop(d, k), k) == None
    ensures other != k ==> Get(Pop(d, k), other) == Get(d, other)
  {
  }

  /** `d[k] = v` for each entry in turn. */
  function PutAll<K, V>(d: Dict<K, V>, entries: seq<(K, V)>): (r: Dict<K, V>)
    requires Valid(d)
    ensures Valid(r)
  {
    if entries == [] then d
    else
      var n := |entries| - 1;
      Put(PutAll(d, entries[..n]), entries[n].0, entries[n].1)
  }

  /** The values `PutAll` leaves: the entries assigned to the map one after the other. */
  function AssignAll<K, V>(m: map<K, V>, entries: seq<(K, V)>): map<K, V>
  {
    if entries == [] then m
    else
      var n := |entries| - 1;
      AssignAll(m, entries[..n])[entries[n].0 := entries[n].1]
  }

  lemma {:induction false} PutAllValues<K, V>(d: Dict<K, V>, entries: seq<(K, V)>)
    requires Valid(d)
    ensures PutAll(d, entries).values == AssignAll(d.values, entries)
  {
    if entries != [] {
      PutAllValues(d, entries[..|entries| - 1]);
    }
  }

  /** After the assignments a key has a value exactly when it had one or an entry assigns it. */
  lemma {:induction false} PutAllKeys<K, V>(d: Dict<K, V>, entries: seq<(K, V)>, k: K)
    requires Valid(d)
    ensures k in PutAll(d, entries).values <==> k in d.values || exists i :: 0 <= i < |entries| && entries[i].0 == k
  {
    PutAllValues(d, entries);
    AssignedKeys(d.values, entries, k);
  }

  lemma {:induction false} AssignedKeys<K, V>(m: map<K, V>, entries: seq<(K, V)>, k: K)
    ensures k in AssignAll(m, entries) <==> k in m || exists i :: 0 <= i < |entries| && entries[i].0 == k
  {
    if entries != [] {
      var n := |entries| - 1;
      AssignedKeys(m, entries[..n], k);
      assert forall i :: 0 <= i < n ==> entries[..n][i] == entries[i];
      if exists i :: 0 <= i < |entries| && entries[i].0 == k {
        var i :| 0 <= i < |entries| && entries[i].0 == k;
        if i < n {
          assert entries[..n][i] == entries[i];
        }
      }
    }
  }

  /** A value after the assignments is the one the key had or one an entry assigned it. */
  lemma {:induction false} PutAllFrom<K, V>(d: Dict<K, V>, entries: seq<(K, V)>, k: K)
    requires Valid(d) && k in PutAll(d, entries).values
    ensures (k in d.values && PutAll(d, entries).values[k] == d.values[k]) ||
            exists i :: 0 <= i < |entries| && entries[i] == (k, PutAll(d, entries).values[k])
  {
    PutAllValues(d, entries);
    AssignedFrom(d.values, entries, k);
  }

  lemma {:induction false} AssignedFrom<K, V>(m: map<K, V>, entries: seq<(K, V)>, k: K)
    requires k in AssignAll(m, entries)
    ensures (k in m && AssignAll(m, entries)[k] == m[k]) || exists i :: 0 <= i < |entries| && entries[i] == (k, AssignAll(m, entries)[k])
  {
    if entries != [] {
      var n := |entries| - 1;
      if entries[n].0 != k {
        AssignedFrom(m, entries[..n], k);
        if exists i :: 0 <= i < n && entries[..n][i] == (k, AssignAll(m, entries[..n])[k]) {
          var i :| 0 <= i < n && entries[..n][i] == (k, AssignAll(m, entries[..n])[k]);
          assert entries[i] == entries[..n][i];
        }
      }
    }
  }

  /** One more assignment after a run of them. */
  lemma PutAllSnoc<K, V>(d: Dict<K, V>, entries: seq<(K, V)>, e: (K, V))
    requires Valid(d)
    ensures PutAll(d, entries + [e]) == Put(PutAll(d, entries), e.0, e.1)
  {
    assert (entries + [e])[..|entries|] == entries;
  }

  /** Assigning two runs of entries is assigning their concatenation. */
  lemma {:induction false} PutAllConcat<K, V>(d: Dict<K, V>, a: seq<(K, V)>, b: seq<(K, V)>)
    requires Valid(d)
    ensures PutAll(d, a + b) == PutAll(PutAll(d, a), b)
    decreases |b|
  {
    if b == [] {
      assert a + b == a;
    } else {
      var n := |b| - 1;
      assert (a + b)[..|a + b| - 1] == a + b[..n];
      assert (a + b)[|a + b| - 1] == b[n];
      PutAllConcat(d, a, b[..n]);
    }
  }

  /** The last entry for a key wins. */
  lemma {:induction false} PutAllLastWins<K, V>(d: Dict<K, V>, entries: seq<(K, V)>, i: int)
    requires Valid(d) && 0 <= i < |entries|
    requires forall j :: i < j < |entries| ==> entries[j].0 != entries[i].0
    ensures Get(PutAll(d, entries), entries[i].0) == Some(entries[i].1)
  {
    PutAllValues(d, entries);
    AssignedLastWins(d.values, entries, i);
  }

  lemma {:induction false} AssignedLastWins<K, V>(m: map<K, V>, entries: seq<(K, V)>, i: int)
    requires 0 <= i < |entries|
    requires forall j :: i < j < |entries| ==> entries[j].0 != entries[i].0
    ensures entries[i].0 in AssignAll(m, entries) && AssignAll(m, entries)[entries[i].0] == entries[i].1
  {
    var n := |entries| - 1;
    if i < n {
      assert entries[..n][i] == entries[i];
      assert forall j :: i < j < n ==> entries[..n][j] == entries[j];
      AssignedLastWins(m, entries[..n], i);
    }
  }

  /** A key no entry names keeps its value, or its absence. */
  lemma {:induction false} PutAllUntouched<K, V>(d: Dict<K, V>, entries: seq<(K, V)>, k: K)
    requires Valid(d)
    requires forall i :: 0 <= i < |entries| ==> entries[i].0 != k
    ensures Get(PutAll(d, entries), k) == Get(d, k)
  {
    PutAllValues(d, entries);
    AssignedUntouched(d.values, entries, k);
  }

  lemma {:induction false} AssignedUntouched<K, V>(m: map<K, V>, entries: seq<(K, V)>, k: K)
    requires forall i :: 0 <= i < |entries| ==> entries[i].0 != k
    ensures (k in AssignAll(m, entries) <==> k in m) && (k in m ==> AssignAll(m, entries)[k] == m[k])
  {
    if entries != [] {
      var n := |entries| - 1;
      assert forall i :: 0 <= i < n ==> entries[..n][i] == entries[i];
      AssignedUntouched(m, entries[..n], k);
    }
  }

  /** `d[k].add(x)` on a `defaultdict(set)`: a missing key starts from the empty set. */
  function AddTo<K, T>(d: Dict<K, set<T>>, k: K, x: T): (r: Dict<K, set<T>>)
    requires Valid(d)
    ensures Valid(r)
    ensures k in r.values && x in r.values[k]
    ensures k in d.values ==> r.values[k] == d.values[k] + {x}
    ensures k !in d.values ==> r.values[k] == {x}
    ensures r.values - {k} == d.values - {k}
    ensures r.keys == if k in d.values then d.keys else d.keys + [k]
  {
    Put(d, k, (if k in d.values then d.values[k] else {}) + {x})
  }

  /** `d[k].add(x)` for each pair in turn. */
  function AddAll<K, T>(d: Dict<K, set<T>>, pairs: seq<(K, T)>): (r: Dict<K, set<T>>)
    requires Valid(d)
    ensures Valid(r)
  {
    if pairs == [] then d
    else
      var n := |pairs| - 1;
      AddTo(AddAll(d, pairs[..n]), pairs[n].0, pairs[n].1)
  }

  /** The values `AddAll` leaves: each pair's element added to its key's set. */
  function AddedAll<K, T>(m: map<K, set<T>>, pairs: seq<(K, T)>): map<K, set<T>>
  {
    if pairs == [] then m
    else
      var n := |pairs| - 1;
      var before := AddedAll(m, pairs[..n]);
      var k := pairs[n].0;
      before[k := (if k in before then before[k] else {}) + {pairs[n].1}]
  }

  lemma {:induction false} AddAllValues<K, T>(d: Dict<K, set<T>>, pairs: seq<(K, T)>)
    requires Valid(d)
    ensures AddAll(d, pairs).values == AddedAll(d.values, pairs)
  {
    if pairs != [] {
      AddAllValues(d, pairs[..|pairs| - 1]);
    }
  }

  /** One more addition after a run of them. */
  lemma AddAllSnoc<K, T>(d: Dict<K, set<T>>, pairs: seq<(K, T)>, x: (K, T))
    requires Valid(d)
    ensures AddAll(d, pairs + [x]) == AddTo(AddAll(d, pairs), x.0, x.1)
  {
    assert (pairs + [x])[..|pairs|] == pairs;
  }

  /** Adding two runs of pairs is adding their concatenation. */
  lemma {:induction false} AddAllConcat<K, T>(d: Dict<K, set<T>>, a: seq<(K, T)>, b: seq<(K, T)>)
    requires Valid(d)
    ensures AddAll(d, a + b) == AddAll(AddAll(d, a), b)
    decreases |b|
  {
    if b == [] {
      assert a + b == a;
    } else {
      var n := |b| - 1;
      assert (a + b)[..|a + b| - 1] == a + b[..n];
      assert (a + b)[|a + b| - 1] == b[n];
      AddAllConcat(d, a, b[..n]);
    }
  }

  /** A key is present exactly when it was or some pair names it. */
  lemma {:induction false} AddAllKeys<K, T>(d: Dict<K, set<T>>, pairs: seq<(K, T)>, k: K)
    requires Valid(d)
    ensures k in AddAll(d, pairs).values <==> k in d.values || exists i :: 0 <= i < |pairs| && pairs[i].0 == k
  {
    AddAllValues(d, pairs);
    AddedKeys(d.values, pairs, k);
  }

  lemma {:induction false} AddedKeys<K, T>(m: map<K, set<T>>, pairs: seq<(K, T)>, k: K)
    ensures k in AddedAll(m, pairs) <==> k in m || exists i :: 0 <= i < |pairs| && pairs[i].0 == k
  {
    if pairs != [] {
      var n := |pairs| - 1;
      AddedKeys(m, pairs[..n], k);
      assert forall i :: 0 <= i < n ==> pairs[..n][i] == pairs[i];
      if exists i :: 0 <= i < |pairs| && pairs[i].0 == k {
        var i :| 0 <= i < |pairs| && pairs[i].0 == k;
        if i < n {
          assert pairs[..n][i] == pairs[i];
        }
      }
    }
  }

  /** A key's set holds exactly what it held and what was added to it. */
  lemma {:induction false} AddAllElements<K, T>(d: Dict<K, set<T>>, pairs: seq<(K, T)>, k: K, x: T)
    requires Valid(d) && k in AddAll(d, pairs).values
    ensures x in AddAll(d, pairs).values[k] <==> (k in d.values && x in d.values[k]) || exists i :: 0 <= i < |pairs| && pairs[i] == (k, x)
  {
    AddAllValues(d, pairs);
    AddedElements(d.values, pairs, k, x);
  }

  lemma {:induction false} AddedElements<K, T>(m: map<K, set<T>>, pairs: seq<(K, T)>, k: K, x: T)
    requires k in AddedAll(m, pairs)
    ensures x in AddedAll(m, pairs)[k] <==> (k in m && x in m[k]) || exists i :: 0 <= i < |pairs| && pairs[i] == (k, x)
  {
    if pairs != [] {
      var n := |pairs| - 1;
      var before := AddedAll(m, pairs[..n]);
      assert forall i :: 0 <= i < n ==> pairs[..n][i] == pairs[i];
      if k in before {
        AddedElements(m, pairs[..n], k, x);
      } else {
        AddedKeys(m, pairs[..n], k);
      }
      if exists i :: 0 <= i < |pairs| && pairs[i] == (k, x) {
        var i :| 0 <= i < |pairs| && pairs[i] == (k, x);
        if i < n {
          assert pairs[..n][i] == pairs[i];
        }
      }
    }
  }

  // ---------------------------------------------------------------------------
  // Sequence steps the loops over dictionaries use.

  lemma ConcatAssociative<T>(x: seq<T>, y: seq<T>, z: seq<T>)
    ensures (x + y) + z == x + (y + z)
  {
  }

  lemma TakeStep<T>(s: seq<T>, k: int)
    requires 0 <= k < |s|
    ensures s[..k + 1] == s[..k] + [s[k]]
  {
  }

  lemma TakeAll<T>(s: seq<T>)
    ensures s[..|s|] == s
  {
  }
}
