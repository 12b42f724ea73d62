/**
 A two-level map from namespace and name to an object. It behaves as one flat map
 whose keys are pairs of a namespace and a name.
 */
module NamespacedObjects {
  import opened Wrappers

  datatype Key = Key(namespace: string, name: string)

  ghost predicate Has<T>(m: map<string, map<string, T>>, ns: string, name: string)
  {
    ns in m && name in m[ns]
  }

  /** `flat` has exactly the objects of the two-level map `m`. */
  ghost predicate Flattens<T>(m: map<string, map<string, T>>, flat: map<Key, T>)
  {
    forall ns, name {:trigger Has(m, ns, name)} ::
      && (Has(m, ns, name) <==> Key(ns, name) in flat)
      && (Has(m, ns, name) ==> m[ns][name] == flat[Key(ns, name)])
  }

  lemma FlattensAt<T>(m: map<string, map<string, T>>, flat: map<Key, T>, k: Key)
    requires Flattens(m, flat)
    ensures k in flat <==> k.namespace in m && k.name in m[k.namespace]
    ensures k in flat ==> flat[k] == m[k.namespace][k.name]
  {
    assert Has(m, k.namespace, k.name) <==> Key(k.namespace, k.name) in flat;
  }

  lemma FlattensPut<T>(m: map<string, map<string, T>>, flat: map<Key, T>, ns: string, name: string, item: T)
    requires Flattens(m, flat)
    ensures var inner := if ns in m then m[ns] else map[];
            Flattens(m[ns := inner[name := item]], flat[Key(ns, name) := item])
  {
    var inner := if ns in m then m[ns] else map[];
    var m', flat' := m[ns := inner[name := item]], flat[Key(ns, name) := item];
    forall ns', name'
      ensures Has(m', ns', name') <==> Key(ns', name') in flat'
      ensures Has(m', ns', name') ==> m'[ns'][name'] == flat'[Key(ns', name')]
    {
      FlattensAt(m, flat, Key(ns', name'));
    }
  }

  lemma FlattensDelete<T>(m: map<string, map<string, T>>, flat: map<Key, T>, ns: string, name: string)
    requires Flattens(m, flat)
    ensures Flattens(if ns in m then m[ns := m[ns] - {name}] else m, flat - {Key(ns, name)})
  {
    var m' := if ns in m then m[ns := m[ns] - {name}] else m;
    var flat' := flat - {Key(ns, name)};
    forall ns', name'
      ensures Has(m', ns', name') <==> Key(ns', name') in flat'
      ensures Has(m', ns', name') ==> m'[ns'][name'] == flat'[Key(ns', name')]
    {
      FlattensAt(m, flat, Key(ns', name'));
    }
  }

  ghost function KeysIn(ns: string, names: seq<string>): seq<Key>
  {
    seq(|names|, i requires 0 <= i < |names| => Key(ns, names[i]))
  }

  /** The objects of the namespaces that are not `left` have been listed, each once. */
  ghost predicate Listed<T>(flat: map<Key, T>, left: set<string>, keys: seq<Key>, items: seq<T>)
  {
    && |items| == |keys|
    && NoDuplicates(keys)
    && (forall k :: k in keys <==> k in flat && k.namespace !in left)
    && (forall i :: 0 <= i < |keys| ==> keys[i] in flat && items[i] == flat[keys[i]])
  }

  lemma KeysInHas(ns: string, names: seq<string>, k: Key)
    ensures k in KeysIn(ns, names) <==> k.namespace == ns && k.name in names
  {
    if k.namespace == ns && k.name in names {
      var i :| 0 <= i < |names| && names[i] == k.name;
      assert KeysIn(ns, names)[i] == k;
    }
  }

  lemma ListedMore<T>(m: map<string, map<string, T>>, flat: map<Key, T>, left: set<string>,
                      keys: seq<Key>, items: seq<T>, ns: string, names: seq<string>, inner: seq<T>)
    requires Flattens(m, flat) && ns in left && left <= m.Keys && Listed(flat, left, keys, items)
    requires |inner| == |names| && NoDuplicates(names)
    requires forall name :: name in names <==> name in m[ns]
    requires forall i :: 0 <= i < |names| ==> names[i] in m[ns] && inner[i] == m[ns][names[i]]
    ensures Listed(flat, left - {ns}, keys + KeysIn(ns, names), items + inner)
  {
    var added := KeysIn(ns, names);
    forall k: Key
      ensures k in keys + added <==> k in flat && k.namespace !in left - {ns}
    {
      FlattensAt(m, flat, k);
      KeysInHas(ns, names, k);
    }
    forall i | 0 <= i < |added|
      ensures added[i] in flat && inner[i] == flat[added[i]]
    {
      FlattensAt(m, flat, added[i]);
    }
    forall i, j | 0 <= i < j < |keys + added|
      ensures (keys + added)[i] != (keys + added)[j]
    {
      if i < |keys| <= j {
        assert keys[i] in keys && (keys + added)[j] == added[j - |keys|];
      }
    }
  }

  class Collection<T> {
    var objects: map<string, map<string, T>>

    /** The contents as one flat map. */
    ghost var flat: map<Key, T>

    ghost predicate Valid()
      reads this
    {
      Flattens(objects, flat)
    }

    constructor ()
      ensures Valid() && flat == map[]
    {
      objects := map[];
      flat := map[];
    }

    method Put(name: string, namespace: string, item: T)
      requires Valid()
      modifies this
      ensures Valid() && flat == old(flat)[Key(namespace, name) := item]
    {
      FlattensPut(objects, flat, namespace, name, item);
      var inner := if namespace in objects then objects[namespace] else map[];
      objects := objects[namespace := inner[name := item]];
      flat := flat[Key(namespace, name) := item];
    }

    method Get(name: string, namespace: string) returns (r: Option<T>)
      requires Valid()
      ensures r == if Key(namespace, name) in flat then Some(flat[Key(namespace, name)]) else None
    {
      FlattensAt(objects, flat, Key(namespace, name));
      if namespace !in objects || name !in objects[namespace] {
        return None;
      }
      return Some(objects[namespace][name]);
    }

    /** The objects of one namespace, each once, in any order. */
    method List(namespace: string) returns (r: seq<T>, ghost names: seq<string>)
      requires Valid()
      ensures |r| == |names| && NoDuplicates(names)
      ensures forall name :: name in names <==> Key(namespace, name) in flat
      ensures forall i :: 0 <= i < |names| ==>
                Key(namespace, names[i]) in flat && r[i] == flat[Key(namespace, names[i])]
    {
      r, names := [], [];
      if namespace in objects {
        r, names := Values(objects[namespace]);
      }
      forall name
        ensures name in names <==> Key(namespace, name) in flat
      {
        FlattensAt(objects, flat, Key(namespace, name));
      }
      forall i | 0 <= i < |names|
        ensures Key(namespace, names[i]) in flat && r[i] == flat[Key(namespace, names[i])]
      {
        FlattensAt(objects, flat, Key(namespace, names[i]));
      }
    }

    /** All objects, each once, in any order. */
    method ListAll() returns (r: seq<T>, ghost keys: seq<Key>)
      requires Valid()
      ensures |r| == |keys| && NoDuplicates(keys)
      ensures forall k :: k in keys <==> k in flat
      ensures forall i :: 0 <= i < |keys| ==> keys[i] in flat && r[i] == flat[keys[i]]
    {
      r, keys := [], [];
      var left := objects.Keys;
      forall k | k in flat
        ensures k.namespace in left
      {
        FlattensAt(objects, flat, k);
      }
      while left != {}
        invariant left <= objects.Keys
        invariant Listed(flat, left, keys, r)
      {
        var ns :| ns in left;
        var inner, names := Values(objects[ns]);
        ListedMore(objects, flat, left, keys, r, ns, names, inner);
        r, keys := r + inner, keys + KeysIn(ns, names);
        left := left - {ns};
      }
    }

    method Delete(name: string, namespace: string)
      requires Valid()
      modifies this
      ensures Valid() && flat == old(flat) - {Key(namespace, name)}
    {
      FlattensDelete(objects, flat, namespace, name);
      if namespace in objects {
        objects := objects[namespace := objects[namespace] - {name}];
      }
      flat := flat - {Key(namespace, name)};
    }
  }

  method Values<T>(m: map<string, T>) returns (r: seq<T>, ghost names: seq<string>)
    ensures |r| == |names| && NoDuplicates(names)
    ensures forall name :: name in names <==> name in m
    ensures forall i :: 0 <= i < |names| ==> names[i] in m && r[i] == m[names[i]]
  {
    r, names := [], [];
    var left := m.Keys;
    while left != {}
      invariant left <= m.Keys
      invariant |r| == |names| && NoDuplicates(names)
      invariant forall name :: name in names <==> name in m && name !in left
      invariant forall i :: 0 <= i < |names| ==> names[i] in m && r[i] == m[names[i]]
    {
      var name :| name in left;
      left := left - {name};
      r, names := r + [m[name]], names + [name];
    }
  }
}
