/**
 JSON merge patches: applying one as section 2 of RFC 7396 says, and computing one
 from two documents.
 */
module MergePatch {
  import opened Wrappers
  import opened Tabulation

  /** A JSON tree; `Atom` stands for every scalar that is not null. */
  datatype Json<+A> =
    | Null
    | Atom(value: A)
    | Arr(items: seq<Json<A>>)
    | Obj(fields: map<string, Json<A>>)

  /** The fields of a target; anything but an object counts as an object without fields. */
  function TargetFields<A>(target: Option<Json<A>>): map<string, Json<A>>
  {
    if target.Some? && target.value.Obj? then target.value.fields else map[]
  }

  /** The MergePatch procedure of RFC 7396. A missing target is `None`. */
  function Apply<A(==)>(target: Option<Json<A>>, patch: Json<A>): Json<A>
    decreases patch
  {
    if !patch.Obj? then patch
    else
      var fields := TargetFields(target);
      var keys := set k | k in fields.Keys + patch.fields.Keys && (k in patch.fields ==> patch.fields[k] != Null);
      Obj(Tabulate(keys, k requires k in keys =>
            if k in patch.fields
            then Apply(if k in fields then Some(fields[k]) else None, patch.fields[k])
            else fields[k]))
  }

  /** The patch that leads from the object `a` to the object `b`. */
  function Diff<A(==)>(a: Json<A>, b: Json<A>): Json<A>
    requires a.Obj? && b.Obj?
    decreases b, 1
  {
    var keys := set k | k in a.fields.Keys + b.fields.Keys && Differs(a, b, k);
    Obj(Tabulate(keys, k requires k in keys =>
          if k !in b.fields then Null
          else if k in a.fields && a.fields[k].Obj? && b.fields[k].Obj? then Diff(a.fields[k], b.fields[k])
          else b.fields[k]))
  }

  /** Whether the patch has an entry for `k`. */
  predicate Differs<A(==)>(a: Json<A>, b: Json<A>, k: string)
    requires a.Obj? && b.Obj? && (k in a.fields || k in b.fields)
    decreases b, 0
  {
    if k !in b.fields || k !in a.fields then true
    else if a.fields[k].Obj? && b.fields[k].Obj? then Diff(a.fields[k], b.fields[k]) != Empty()
    else a.fields[k] != b.fields[k]
  }

  /** The patch that changes nothing. */
  function Empty<A>(): Json<A>
  {
    Obj(map[])
  }

  /** No object, at any depth that is reached through objects, has a null field. */
  predicate NullFree<A>(j: Json<A>)
  {
    j.Obj? ==> forall k :: k in j.fields ==> j.fields[k] != Null && NullFree(j.fields[k])
  }

  lemma {:induction false} ApplyToNothing<A(!new)>(j: Json<A>, target: Option<Json<A>>)
    requires NullFree(j) && (target.None? || !target.value.Obj?)
    ensures Apply(target, j) == j
  {
    if j.Obj? {
      var r := Apply(target, j);
      forall k | k in j.fields
        ensures k in r.fields && r.fields[k] == j.fields[k]
      {
        ApplyToNothing(j.fields[k], None);
      }
      assert r.fields == j.fields;
    }
  }

  /** One entry of a computed patch. */
  lemma DiffEntry<A(!new)>(a: Json<A>, b: Json<A>, k: string)
    requires a.Obj? && b.Obj?
    ensures k in Diff(a, b).fields <==> (k in a.fields || k in b.fields) && Differs(a, b, k)
    ensures k in Diff(a, b).fields ==>
              Diff(a, b).fields[k] ==
              if k !in b.fields then Null
              else if k in a.fields && a.fields[k].Obj? && b.fields[k].Obj? then Diff(a.fields[k], b.fields[k])
              else b.fields[k]
  {
  }

  /** One entry of a patched object. */
  lemma ApplyEntry<A(!new)>(a: Json<A>, p: Json<A>, k: string)
    requires a.Obj? && p.Obj?
    ensures Apply(Some(a), p).Obj?
    ensures k in Apply(Some(a), p).fields <==> if k in p.fields then p.fields[k] != Null else k in a.fields
    ensures k in Apply(Some(a), p).fields ==>
              Apply(Some(a), p).fields[k] ==
              if k in p.fields then Apply(if k in a.fields then Some(a.fields[k]) else None, p.fields[k])
              else a.fields[k]
  {
  }

  lemma {:induction false} EmptyDiff<A(!new)>(a: Json<A>, b: Json<A>)
    requires a.Obj? && b.Obj?
    ensures Diff(a, b) == Empty() <==> a == b
    decreases b
  {
    var d := Diff(a, b);
    if d == Empty() {
      forall k | k in a.fields || k in b.fields
        ensures k in a.fields && k in b.fields && a.fields[k] == b.fields[k]
      {
        DiffEntry(a, b, k);
        if k in a.fields && k in b.fields && a.fields[k].Obj? && b.fields[k].Obj? {
          EmptyDiff(a.fields[k], b.fields[k]);
        }
      }
      assert a.fields == b.fields;
    }
    if a == b {
      forall k | k in a.fields
        ensures !Differs(a, b, k)
      {
        if a.fields[k].Obj? {
          EmptyDiff(a.fields[k], b.fields[k]);
        }
      }
      assert d.fields == map[];
    }
  }

  /** Applying the computed patch gives the second document, if that has no null field. */
  lemma {:induction false} ApplyDiff<A(!new)>(a: Json<A>, b: Json<A>)
    requires a.Obj? && b.Obj? && NullFree(b)
    ensures Apply(Some(a), Diff(a, b)) == b
    decreases b
  {
    var d := Diff(a, b);
    var r := Apply(Some(a), d);
    forall k
      ensures k in r.fields <==> k in b.fields
      ensures k in b.fields ==> k in r.fields && r.fields[k] == b.fields[k]
    {
      DiffEntry(a, b, k);
      ApplyEntry(a, d, k);
      if k in b.fields {
        assert NullFree(b.fields[k]);
        if k in a.fields && a.fields[k].Obj? && b.fields[k].Obj? {
          EmptyDiff(a.fields[k], b.fields[k]);
          ApplyDiff(a.fields[k], b.fields[k]);
        } else if b.fields[k].Obj? {
          ApplyToNothing(b.fields[k], if k in a.fields then Some(a.fields[k]) else None);
        }
      }
    }
    assert r.fields == b.fields;
  }

  /** Applying a patch to nothing leaves no null field behind. */
  lemma {:induction false} ApplyToNothingIsNullFree<A(!new)>(j: Json<A>)
    ensures NullFree(Apply(None, j))
  {
    if j.Obj? {
      forall k | k in Apply(None, j).fields
        ensures Apply(None, j).fields[k] != Null && NullFree(Apply(None, j).fields[k])
      {
        ApplyToNothingIsNullFree(j.fields[k]);
      }
    }
  }

  lemma UnreachableFromEmpty<A(!new)>(b: Json<A>)
    requires b.Obj? && !NullFree(b)
    ensures Apply(Some(Empty()), Diff(Empty(), b)) != b
  {
    assert Diff(Empty(), b) == b by {
      forall k
        ensures k in Diff(Empty(), b).fields <==> k in b.fields
        ensures k in b.fields ==> k in Diff(Empty(), b).fields && Diff(Empty(), b).fields[k] == b.fields[k]
      {
        DiffEntry(Empty(), b, k);
      }
      assert Diff(Empty(), b).fields == b.fields;
    }
    assert Apply(Some(Empty()), b) == Apply(None, b) by {
      assert Apply(Some(Empty()), b).fields == Apply(None, b).fields;
    }
    ApplyToNothingIsNullFree(b);
  }

  /**
   A document can be reached from every other one by a computed patch exactly when
   it has no null field.
   */
  lemma PatchableIffNullFree<A(!new)>(b: Json<A>)
    requires b.Obj?
    ensures (forall a: Json<A> :: a.Obj? ==> Apply(Some(a), Diff(a, b)) == b) <==> NullFree(b)
  {
    if NullFree(b) {
      forall a: Json<A> | a.Obj?
        ensures Apply(Some(a), Diff(a, b)) == b
      {
        ApplyDiff(a, b);
      }
    } else {
      UnreachableFromEmpty(b);
    }
  }
}
