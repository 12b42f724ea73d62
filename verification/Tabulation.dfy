/**
 Maps built entry by entry, in the order of their keys.
 */
module Tabulation {
  import opened Names

  predicate IsFirst(key: string, keys: set<string>)
  {
    key in keys && forall k :: k in keys ==> Le(key, k)
  }

  lemma {:induction false} FirstExists(keys: set<string>)
    requires keys != {}
    ensures exists key :: IsFirst(key, keys)
  {
    var k :| k in keys;
    var rest := keys - {k};
    LeTotal(k, k);
    if rest == {} {
      assert keys == {k};
      assert IsFirst(k, keys);
    } else {
      FirstExists(rest);
      var first :| IsFirst(first, rest);
      LeTotal(k, first);
      if Le(k, first) {
        forall x | x in keys
          ensures Le(k, x)
        {
          if x != k {
            LeTransitive(k, first, x);
          }
        }
        assert IsFirst(k, keys);
      } else {
        assert IsFirst(first, keys);
      }
    }
  }

  function First(keys: set<string>): (key: string)
    requires keys != {}
    ensures key in keys
  {
    FirstExists(keys);
    assert forall a, b | IsFirst(a, keys) && IsFirst(b, keys) :: a == b by {
      forall a, b | IsFirst(a, keys) && IsFirst(b, keys)
        ensures a == b
      {
        LeAntisymmetric(a, b);
      }
    }
    var key :| key in keys && IsFirst(key, keys);
    key
  }

  /** The map that takes each of the keys to what `f` says. */
  function Tabulate<V>(keys: set<string>, f: string --> V): (m: map<string, V>)
    requires forall k :: k in keys ==> f.requires(k)
    ensures m.Keys == keys
    ensures forall k :: k in keys ==> m[k] == f(k)
  {
    if keys == {} then map[]
    else
      var k := First(keys);
      Tabulate(keys - {k}, f)[k := f(k)]
  }
}
