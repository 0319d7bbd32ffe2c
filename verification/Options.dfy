module Options {
  datatype Option<+T> = None | Some(value: T)

  /** The value a Go map lookup yields: present, or nothing. */
  function Lookup<K, V>(m: map<K, V>, k: K): Option<V> {
    if k in m then Some(m[k]) else None
  }

  /** `m` with the updates of `upd` at the keys in `done`: a map a loop has half rewritten. */
  function Overlay<K, V>(m: map<K, V>, upd: map<K, V>, done: set<K>): map<K, V> {
    m + map k | k in upd && k in done :: upd[k]
  }

  lemma OverlayOne<K, V>(m: map<K, V>, upd: map<K, V>, done: set<K>, k: K)
    requires k !in done
    ensures Overlay(m, upd, done + {k}) == if k in upd then Overlay(m, upd, done)[k := upd[k]]
            else Overlay(m, upd, done)
    ensures Lookup(Overlay(m, upd, done), k) == Lookup(m, k)
  {
  }

  lemma OverlayAll<K, V>(m: map<K, V>, upd: map<K, V>, done: set<K>)
    requires upd.Keys <= done
    ensures Overlay(m, upd, done) == m + upd
  {
  }

  lemma OverlayNone<K, V>(m: map<K, V>, upd: map<K, V>)
    ensures Overlay(m, upd, {}) == m
  {
  }

  /** `m` without the keys of `drops` a loop has visited so far. */
  function Pruned<K, V>(m: map<K, V>, drops: set<K>, done: set<K>): map<K, V> {
    m - drops * done
  }

  lemma PrunedOne<K, V>(m: map<K, V>, drops: set<K>, done: set<K>, k: K)
    requires k !in done
    ensures Pruned(m, drops, done + {k}) == if k in drops then Pruned(m, drops, done) - {k} else Pruned(m, drops, done)
    ensures Lookup(Pruned(m, drops, done), k) == Lookup(m, k)
  {
  }

  lemma PrunedNone<K, V>(m: map<K, V>, drops: set<K>)
    ensures Pruned(m, drops, {}) == m
  {
  }

  lemma PrunedAll<K, V>(m: map<K, V>, drops: set<K>, done: set<K>)
    requires drops <= done
    ensures Pruned(m, drops, done) == m - drops
  {
    assert drops * done == drops;
  }

  lemma DropTwice<K, V>(m: map<K, V>, a: set<K>, k: K)
    ensures m - (a + {k}) == m - a - {k}
  {
  }

  /** Two maps with the same lookups are the same map. */
  lemma SameMap<K(!new), V>(a: map<K, V>, b: map<K, V>)
    requires forall k :: Lookup(a, k) == Lookup(b, k)
    ensures a == b
  {
    forall k ensures k in a <==> k in b { assert Lookup(a, k) == Lookup(b, k); }
    forall k | k in a ensures a[k] == b[k] { assert Lookup(a, k) == Lookup(b, k); }
  }
}
