/**
 * Association lists keyed by strings: the model of a Rust `HashMap<String, V>`
 * whose iteration order is observable. The order of the list stands for the
 * (unspecified) iteration order of the hash map; keys are kept distinct.
 */
module Assoc {
  import opened Wrappers

  type Entries<V> = seq<(string, V)>

  /** No key occurs twice. */
  predicate Distinct<V>(m: Entries<V>) {
    forall i, j :: 0 <= i < j < |m| ==> m[i].0 != m[j].0
  }

  /** The keys, in iteration order (Rust `m.keys()`). */
  function Keys<V>(m: Entries<V>): (r: seq<string>)
    ensures |r| == |m|
    ensures forall i :: 0 <= i < |m| ==> r[i] == m[i].0
  {
    if |m| == 0 then [] else [m[0].0] + Keys(m[1..])
  }

  /** `k` is a key of `m` (Rust `m.contains_key(k)`). */
  predicate HasKey<V>(m: Entries<V>, k: string) {
    exists i :: 0 <= i < |m| && m[i].0 == k
  }

  /** Lookup (Rust `m.get(k)`). */
  function Get<V>(m: Entries<V>, k: string): (r: Option<V>)
    ensures r.Some? <==> HasKey(m, k)
    ensures r.Some? ==> exists i :: 0 <= i < |m| && m[i] == (k, r.value)
  {
    if |m| == 0 then None
    else if m[0].0 == k then Some(m[0].1)
    else
      var r := Get(m[1..], k);
      assert forall i :: 0 < i < |m| ==> m[i] == m[1..][i - 1];
      assert HasKey(m, k) ==> HasKey(m[1..], k) by {
        if HasKey(m, k) {
          var i :| 0 <= i < |m| && m[i].0 == k;
          assert m[1..][i - 1].0 == k;
        }
      }
      r
  }

  /**
   * Insertion (Rust `m.insert(k, v)`): an existing entry for `k` is
   * overwritten where it stands, otherwise a new entry goes at the end.
   */
  function Insert<V>(m: Entries<V>, k: string, v: V): (r: Entries<V>)
    ensures HasKey(m, k) ==> |r| == |m|
    ensures !HasKey(m, k) ==> r == m + [(k, v)]
    ensures forall i :: 0 <= i < |m| ==> r[i].0 == m[i].0
  {
    if |m| == 0 then [(k, v)]
    else if m[0].0 == k then [(k, v)] + m[1..]
    else
      assert HasKey(m, k) <==> HasKey(m[1..], k) by {
        if HasKey(m, k) {
          var i :| 0 <= i < |m| && m[i].0 == k;
          assert m[1..][i - 1].0 == k;
        }
        if HasKey(m[1..], k) {
          var i :| 0 <= i < |m[1..]| && m[1..][i].0 == k;
          assert m[i + 1].0 == k;
        }
      }
      [m[0]] + Insert(m[1..], k, v)
  }

  /** Removal (Rust `m.remove(k)`): the entry for `k`, if any, is dropped. */
  function Remove<V>(m: Entries<V>, k: string): (r: Entries<V>)
    ensures |r| <= |m|
    ensures forall i :: 0 <= i < |r| ==> r[i].0 != k
    ensures forall e :: e in r ==> e in m
  {
    if |m| == 0 then []
    else if m[0].0 == k then Remove(m[1..], k)
    else [m[0]] + Remove(m[1..], k)
  }

  /** After `insert(k, v)`, `get(k)` gives `v` and every other key is unaffected. */
  lemma {:induction false} GetInsert<V>(m: Entries<V>, k: string, v: V, k2: string)
    ensures Get(Insert(m, k, v), k2) == if k2 == k then Some(v) else Get(m, k2)
    decreases |m|
  {
    if |m| == 0 {
    } else if m[0].0 == k {
      assert Insert(m, k, v)[1..] == m[1..];
    } else {
      assert Insert(m, k, v)[1..] == Insert(m[1..], k, v);
      GetInsert(m[1..], k, v, k2);
    }
  }

  /** `get` after `insert`, for the inserted key and for every other key at once. */
  lemma GetInsertEach<V>(m: Entries<V>, key: string, value: V)
    ensures Get(Insert(m, key, value), key) == Some(value)
    ensures forall k :: k != key ==> Get(Insert(m, key, value), k) == Get(m, k)
  {
    GetInsert(m, key, value, key);
    forall k | k != key ensures Get(Insert(m, key, value), k) == Get(m, k) {
      GetInsert(m, key, value, k);
    }
  }

  /** Insertion keeps the keys distinct. */
  lemma {:induction false} InsertDistinct<V>(m: Entries<V>, k: string, v: V)
    requires Distinct(m)
    ensures Distinct(Insert(m, k, v))
    decreases |m|
  {
    if |m| == 0 {
    } else if m[0].0 == k {
      var r := Insert(m, k, v);
      assert forall i :: 0 <= i < |r| ==> r[i].0 == m[i].0;
    } else {
      InsertDistinct(m[1..], k, v);
      var r := Insert(m, k, v);
      var t := Insert(m[1..], k, v);
      assert r == [m[0]] + t;
      forall i, j | 0 <= i < j < |r| ensures r[i].0 != r[j].0 {
        if i == 0 {
          if HasKey(m[1..], k) {
            assert t[j - 1].0 == m[1..][j - 1].0 == m[j].0;
          } else if j - 1 < |m[1..]| {
            assert t[j - 1].0 == m[j].0;
          } else {
            assert t[j - 1].0 == k;
          }
        }
      }
    }
  }

  /** After `remove(k)`, `get(k)` is None and every other key is unaffected. */
  lemma {:induction false} GetRemove<V>(m: Entries<V>, k: string, k2: string)
    ensures Get(Remove(m, k), k2) == if k2 == k then None else Get(m, k2)
    decreases |m|
  {
    if |m| == 0 {
    } else if m[0].0 == k {
      GetRemove(m[1..], k, k2);
    } else {
      assert Remove(m, k)[1..] == Remove(m[1..], k);
      GetRemove(m[1..], k, k2);
    }
  }

  /** The set of keys. */
  function KeySet<V>(m: Entries<V>): set<string> {
    set i | 0 <= i < |m| :: m[i].0
  }

  /** `k` is a key of `m` exactly when it is the first key or a key of the rest. */
  lemma HasKeyCons<V>(m: Entries<V>, k: string)
    requires |m| > 0
    ensures HasKey(m, k) <==> m[0].0 == k || HasKey(m[1..], k)
  {
    if HasKey(m, k) && m[0].0 != k {
      var i :| 0 <= i < |m| && m[i].0 == k;
      assert m[1..][i - 1].0 == k;
    }
    if HasKey(m[1..], k) {
      var i :| 0 <= i < |m[1..]| && m[1..][i].0 == k;
      assert m[i + 1].0 == k;
    }
  }

  /** The entries as a map, for a consumer that never iterates (Rust `m.clone()` handed to a process). */
  function ToMap<V>(m: Entries<V>): (r: map<string, V>)
    ensures forall k :: k in r <==> HasKey(m, k)
    ensures forall k :: k in r ==> Get(m, k) == Some(r[k])
  {
    if |m| == 0 then map[]
    else
      var rest := ToMap(m[1..]);
      forall k ensures HasKey(m, k) <==> m[0].0 == k || HasKey(m[1..], k) {
        HasKeyCons(m, k);
      }
      rest[m[0].0 := m[0].1]
  }

  /** The entries of `vars` inserted into `m` one after the other, in order. */
  function InsertAll<V>(m: Entries<V>, vars: Entries<V>): (r: Entries<V>)
    decreases |vars|
  {
    if |vars| == 0 then m else InsertAll(Insert(m, vars[0].0, vars[0].1), vars[1..])
  }

  /** After inserting every entry of `vars`, each key of `vars` maps to its value there, and other keys keep theirs. */
  lemma {:induction false} GetInsertAll<V>(m: Entries<V>, vars: Entries<V>, k: string)
    requires Distinct(vars)
    ensures Get(InsertAll(m, vars), k) == if HasKey(vars, k) then Get(vars, k) else Get(m, k)
    decreases |vars|
  {
    if |vars| > 0 {
      assert Distinct(vars[1..]) by {
        forall i, j | 0 <= i < j < |vars[1..]| ensures vars[1..][i].0 != vars[1..][j].0 {
          assert vars[1..][i] == vars[i + 1] && vars[1..][j] == vars[j + 1];
        }
      }
      GetInsertAll(Insert(m, vars[0].0, vars[0].1), vars[1..], k);
      GetInsert(m, vars[0].0, vars[0].1, k);
      HasKeyCons(vars, k);
      if vars[0].0 == k {
        assert !HasKey(vars[1..], k) by {
          forall j | 0 <= j < |vars[1..]| ensures vars[1..][j].0 != k {
            assert vars[1..][j] == vars[j + 1];
          }
        }
      }
    }
  }

  /** Inserting several entries keeps the keys distinct. */
  lemma {:induction false} InsertAllDistinct<V>(m: Entries<V>, vars: Entries<V>)
    requires Distinct(m)
    ensures Distinct(InsertAll(m, vars))
    decreases |vars|
  {
    if |vars| > 0 {
      InsertDistinct(m, vars[0].0, vars[0].1);
      InsertAllDistinct(Insert(m, vars[0].0, vars[0].1), vars[1..]);
    }
  }

  /** Inserting `a + b` is inserting `a`, then `b`. */
  lemma {:induction false} InsertAllAppend<V>(m: Entries<V>, a: Entries<V>, b: Entries<V>)
    ensures InsertAll(m, a + b) == InsertAll(InsertAll(m, a), b)
    decreases |a|
  {
    if |a| == 0 {
      assert a + b == b;
    } else {
      assert (a + b)[0] == a[0] && (a + b)[1..] == a[1..] + b;
      InsertAllAppend(Insert(m, a[0].0, a[0].1), a[1..], b);
    }
  }
}
