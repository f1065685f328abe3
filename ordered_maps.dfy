/** JavaScript's `Map<string, V>`: lookups by key, iteration in insertion order. `set` on a present key
    keeps its position; `delete` removes it; `Object.fromEntries`/`Object.entries` read the entries in
    insertion order, for the non-numeric server ids the app uses (JavaScript would list integer-like
    keys first, in ascending order). */
module OrderedMaps {
  import opened Wrappers

  type Entries<V> = seq<(string, V)>

  function Keys<V>(m: Entries<V>): (ks: seq<string>)
    ensures |ks| == |m| && forall i :: 0 <= i < |m| ==> ks[i] == m[i].0
  {
    if m == [] then [] else [m[0].0] + Keys(m[1..])
  }

  /** No key appears twice: every reachable map has this shape. */
  predicate UniqueKeys<V>(m: Entries<V>) {
    forall i, j :: 0 <= i < j < |m| ==> m[i].0 != m[j].0
  }

  /** `map.get(k)`. */
  function Get<V>(m: Entries<V>, k: string): (r: Option<V>)
    ensures r.None? <==> k !in Keys(m)
    ensures r.Some? ==> (k, r.value) in m
  {
    if m == [] then None else if m[0].0 == k then Some(m[0].1) else Get(m[1..], k)
  }

  /** `map.set(k, v)`. */
  function Put<V>(m: Entries<V>, k: string, v: V): (r: Entries<V>)
    ensures Keys(r) == if k in Keys(m) then Keys(m) else Keys(m) + [k]
  {
    if m == [] then [(k, v)]
    else if m[0].0 == k then [(k, v)] + m[1..]
    else [m[0]] + Put(m[1..], k, v)
  }

  /** `map.delete(k)`. */
  function Remove<V>(m: Entries<V>, k: string): (r: Entries<V>)
    ensures forall i :: 0 <= i < |r| ==> r[i] in m && r[i].0 != k
  {
    if m == [] then [] else (if m[0].0 == k then [] else [m[0]]) + Remove(m[1..], k)
  }

  /** Deleting every key of `ks`, in any order. */
  function RemoveAll<V>(m: Entries<V>, ks: set<string>): (r: Entries<V>)
    ensures forall i :: 0 <= i < |r| ==> r[i] in m && r[i].0 !in ks
  {
    if m == [] then [] else (if m[0].0 in ks then [] else [m[0]]) + RemoveAll(m[1..], ks)
  }

  lemma {:induction false} GetPut<V>(m: Entries<V>, k: string, v: V, k': string)
    ensures Get(Put(m, k, v), k') == if k' == k then Some(v) else Get(m, k')
  {
    if m != [] && m[0].0 != k {
      GetPut(m[1..], k, v, k');
    }
  }

  lemma {:induction false} PutUnique<V>(m: Entries<V>, k: string, v: V)
    requires UniqueKeys(m)
    ensures UniqueKeys(Put(m, k, v))
  {
    var r := Put(m, k, v);
    var kr := Keys(r);
    assert forall i :: 0 <= i < |r| ==> r[i].0 == kr[i];
    var km := Keys(m);
    forall i, j | 0 <= i < j < |r| ensures r[i].0 != r[j].0 {
      if k in km {
        assert kr[i] == km[i] && kr[j] == km[j];
      } else if j < |m| {
        assert kr[i] == km[i] && kr[j] == km[j];
      } else {
        assert kr[j] == k && kr[i] == km[i];
      }
    }
  }

  lemma {:induction false} GetRemoveAll<V>(m: Entries<V>, ks: set<string>, k': string)
    ensures Get(RemoveAll(m, ks), k') == if k' in ks then None else Get(m, k')
  {
    if m != [] {
      GetRemoveAll(m[1..], ks, k');
      var tail := RemoveAll(m[1..], ks);
      if m[0].0 in ks {
        assert RemoveAll(m, ks) == tail;
      } else {
        var r := [m[0]] + tail;
        assert RemoveAll(m, ks) == r;
        assert r[0] == m[0] && r[1..] == tail;
        assert Get(r, k') == if m[0].0 == k' then Some(m[0].1) else Get(tail, k');
      }
    }
  }

  lemma {:induction false} RemoveAllNothing<V>(m: Entries<V>)
    ensures RemoveAll(m, {}) == m
  {
    if m != [] {
      RemoveAllNothing(m[1..]);
      assert [m[0]] + m[1..] == m;
    }
  }

  lemma {:induction false} RemoveIsRemoveAll<V>(m: Entries<V>, k: string)
    ensures Remove(m, k) == RemoveAll(m, {k})
  {
    if m != [] {
      RemoveIsRemoveAll(m[1..], k);
    }
  }

  lemma {:induction false} RemoveAppend<V>(a: Entries<V>, b: Entries<V>, k: string)
    ensures Remove(a + b, k) == Remove(a, k) + Remove(b, k)
  {
    if a == [] {
      assert a + b == b;
    } else {
      assert (a + b)[0] == a[0] && (a + b)[1..] == a[1..] + b;
      RemoveAppend(a[1..], b, k);
    }
  }

  /** Deleting one more key after a batch is the batch with that key added. */
  lemma {:induction false} RemoveAllStep<V>(m: Entries<V>, ks: set<string>, k: string)
    ensures Remove(RemoveAll(m, ks), k) == RemoveAll(m, ks + {k})
  {
    if m != [] {
      RemoveAllStep(m[1..], ks, k);
      var head: Entries<V> := if m[0].0 in ks then [] else [m[0]];
      var tail := RemoveAll(m[1..], ks);
      assert RemoveAll(m, ks) == head + tail;
      RemoveAppend(head, tail, k);
      if head != [] {
        assert Remove(head, k) == (if m[0].0 == k then [] else [m[0]]) + Remove([], k);
      }
    }
  }

  lemma {:induction false} RemoveAllUnique<V>(m: Entries<V>, ks: set<string>)
    requires UniqueKeys(m)
    ensures UniqueKeys(RemoveAll(m, ks))
  {
    if m != [] {
      RemoveAllUnique(m[1..], ks);
      var tail := RemoveAll(m[1..], ks);
      if m[0].0 !in ks {
        var r := [m[0]] + tail;
        forall j | 0 < j < |r| ensures r[0].0 != r[j].0 {
          assert r[j] == tail[j - 1];
          assert tail[j - 1] in m[1..];
        }
      }
    }
  }
}
