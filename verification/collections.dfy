/** Building a map from a list of entries, as `HashMap::from_iter` does. */
module Collections {

  /** The entries are inserted in list order; every entry's key ends up in the map,
      and every value of the map is one of the entries, stored under its own key. */
  function IndexBy<K(==), T>(xs: seq<T>, key: T -> K): (m: map<K, T>)
    ensures forall i :: 0 <= i < |xs| ==> key(xs[i]) in m
    ensures forall k :: k in m ==> m[k] in xs && key(m[k]) == k
  {
    if xs == [] then map[]
    else
      var init := xs[..|xs| - 1];
      var last := xs[|xs| - 1];
      assert xs == init + [last];
      IndexBy(init, key)[key(last) := last]
  }

  /** For a key that occurs more than once, the LAST entry carrying it is the one kept. */
  lemma {:induction false} IndexByLastWins<K, T>(xs: seq<T>, key: T -> K, i: nat)
    requires i < |xs|
    requires forall j :: i < j < |xs| ==> key(xs[j]) != key(xs[i])
    ensures IndexBy(xs, key)[key(xs[i])] == xs[i]
  {
    if i < |xs| - 1 {
      var init := xs[..|xs| - 1];
      assert init[i] == xs[i];
      IndexByLastWins(init, key, i);
    }
  }
}
