/** Values that may be missing, checks that may fail, and maps compared key by key. */
module Wrappers {

  datatype Option<+T> = None | Some(value: T)

  datatype Outcome<+E> = Pass | Fail(error: E)

  /** The maps have the same value at a key, or none. */
  ghost predicate SameAt<K, V>(m: map<K, V>, m': map<K, V>, key: K) {
    (key in m <==> key in m') && (key in m ==> m[key] == m'[key])
  }

  lemma {:induction false} SameEverywhere<K(!new), V>(m: map<K, V>, m': map<K, V>)
    requires forall key :: SameAt(m, m', key)
    ensures m == m'
  {
    forall key ensures key in m <==> key in m' {
      assert SameAt(m, m', key);
    }
    forall key | key in m ensures m[key] == m'[key] {
      assert SameAt(m, m', key);
    }
  }
}
