/** The get-or-insert discipline of the static interning tables
    (`cartCoordMap`, `sphereCoordMap`, `footballTypes`): look the key up and
    return the stored entry on a hit; on a miss store the new entry under the
    key and return it. Nothing is ever replaced or removed. */
module Interning {

  /** The table after a get-or-insert of `v` under `key`. */
  function Intern<K, V>(table: map<K, V>, key: K, v: V): (after: map<K, V>)
    ensures key in after
    ensures forall k :: k in table ==> k in after && after[k] == table[k]
    ensures key !in table ==> after[key] == v
    ensures forall k :: k in after ==> k in table || k == key
  {
    if key in table then table else table[key := v]
  }

  /** The entry a get-or-insert of `v` under `key` hands back. */
  function Resolve<K, V>(table: map<K, V>, key: K, v: V): (r: V)
    ensures key in table ==> r == table[key]
    ensures key !in table ==> r == v
  {
    if key in table then table[key] else v
  }

  /** `after` is `before` after one get-or-insert under `key` that returned
      `v`: on a hit the table is unchanged and `v` is the stored entry, on a
      miss `v` is stored under `key` and nothing else changes. */
  ghost predicate Interned<K, V>(before: map<K, V>, after: map<K, V>, key: K, v: V)
  {
    after == Intern(before, key, v) && v == Resolve(before, key, v)
  }

  /** Entries are never replaced or removed. */
  ghost predicate Grows<K, V>(before: map<K, V>, after: map<K, V>)
  {
    forall k :: k in before ==> k in after && after[k] == before[k]
  }

  lemma InternedGrows<K, V>(before: map<K, V>, after: map<K, V>, key: K, v: V)
    requires Interned(before, after, key, v)
    ensures Grows(before, after)
    ensures key in after && after[key] == v
  {
  }

  /** Two get-or-inserts under the same key return the same entry, and the
      second leaves the table as the first left it. */
  lemma InternedTwice<K, V>(m0: map<K, V>, m1: map<K, V>, m2: map<K, V>, key: K, v1: V, v2: V)
    requires Interned(m0, m1, key, v1)
    requires Interned(m1, m2, key, v2)
    ensures v2 == v1
    ensures m2 == m1
  {
    InternedGrows(m0, m1, key, v1);
  }

  lemma GrowsTransitive<K, V>(m0: map<K, V>, m1: map<K, V>, m2: map<K, V>)
    requires Grows(m0, m1) && Grows(m1, m2)
    ensures Grows(m0, m2)
  {
  }

  /** At the level of values: a second get-or-insert under the same key
      resolves to what the first one resolved to, whatever it offers. */
  lemma ResolveAfterIntern<K, V>(table: map<K, V>, key: K, v: V, w: V)
    ensures Resolve(Intern(table, key, v), key, w) == Resolve(table, key, v)
    ensures Intern(Intern(table, key, v), key, w) == Intern(table, key, v)
  {
  }

  /** A hit hands back the stored entry even when a different value was
      offered: lookup is by key only. */
  lemma HitIgnoresOffer<K, V>(table: map<K, V>, key: K, v: V, w: V)
    requires key in table
    ensures Resolve(table, key, v) == Resolve(table, key, w)
  {
  }
}
