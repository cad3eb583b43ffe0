/** Sizes of sets and maps, as the admission arguments need them. */
module Counting {

  ghost predicate Injective<K, V>(m: map<K, V>)
  {
    forall x, y :: x in m && y in m && m[x] == m[y] ==> x == y
  }

  lemma {:induction false} InjectiveSize<K, V>(m: map<K, V>)
    requires Injective(m)
    ensures |m.Values| == |m|
    decreases |m|
  {
    if m == map[] {
      assert m.Values == {};
    } else {
      var k :| k in m;
      var rest := m - {k};
      assert m.Keys == rest.Keys + {k};
      assert forall x :: x in rest ==> rest[x] == m[x];
      assert m.Values == rest.Values + {m[k]};
      InjectiveSize(rest);
    }
  }

  lemma {:induction false} SubsetSize<T>(small: set<T>, big: set<T>)
    requires small <= big
    ensures |small| <= |big|
    decreases |small|
  {
    if small != {} {
      var x :| x in small;
      SubsetSize(small - {x}, big - {x});
    }
  }
}
