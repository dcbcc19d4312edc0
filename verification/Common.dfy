/** Types and small facts shared by every component. */
module Common {

  datatype Option<+T> = None | Some(value: T)

  /** A call that either returns a value or raises. */
  datatype Result<+T, +E> = Ok(value: T) | Err(error: E)

  function Get<K, V>(m: map<K, V>, k: K): Option<V> {
    if k in m then Some(m[k]) else None
  }

  lemma {:induction false} SameMaps<K, V>(a: map<K, V>, b: map<K, V>)
    requires forall k :: Get(a, k) == Get(b, k)
    ensures a == b
  {
    forall k
      ensures k in a <==> k in b
      ensures k in a ==> a[k] == b[k]
    {
      assert Get(a, k) == Get(b, k);
    }
  }

  predicate Distinct<T(==)>(s: seq<T>) { forall i, j :: 0 <= i < j < |s| ==> s[i] != s[j] }

  /** A map with one value written at every key of a set. */
  function Mark<K, V>(m: map<K, V>, keys: set<K>, v: V): map<K, V> {
    m + (map k | k in keys :: v)
  }

  lemma {:induction false} GetMarked<K, V>(m: map<K, V>, keys: set<K>, v: V, k: K)
    ensures Get(Mark(m, keys, v), k) == if k in keys then Some(v) else Get(m, k)
  {
  }

  lemma {:induction false} Regroup<T>(a: seq<T>, b: seq<T>, c: seq<T>)
    ensures a + b + c == a + (b + c)
  {
  }

  lemma {:induction false} EmptyFirst<T>(s: seq<T>)
    ensures [] + s == s
  {
  }

  lemma {:induction false} DropPrefix<T>(a: seq<T>, b: seq<T>)
    ensures a <= a + b && (a + b)[|a|..] == b
  {
  }

  lemma {:induction false} EmptyLast<T>(s: seq<T>)
    ensures s + [] == s
  {
  }

  lemma {:induction false} MarkOneMore<K, V>(m: map<K, V>, keys: set<K>, k: K, v: V)
    ensures Mark(m, keys, v)[k := v] == Mark(m, keys + {k}, v)
  {
  }

  lemma {:induction false} MarkNothing<K, V>(m: map<K, V>, v: V)
    ensures Mark(m, {}, v) == m
  {
  }
}
