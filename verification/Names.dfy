/**
 Lists of names in lexicographic order.
 */
module Names {
  import opened Wrappers

  predicate Le(a: string, b: string)
  {
    a == [] || (b != [] && (a[0] < b[0] || (a[0] == b[0] && Le(a[1..], b[1..]))))
  }

  lemma {:induction false} LeTotal(a: string, b: string)
    ensures Le(a, b) || Le(b, a)
  {
    if a != [] && b != [] && a[0] == b[0] {
      LeTotal(a[1..], b[1..]);
    }
  }

  lemma {:induction false} LeAntisymmetric(a: string, b: string)
    requires Le(a, b) && Le(b, a)
    ensures a == b
  {
    if a == [] {
    } else {
      LeAntisymmetric(a[1..], b[1..]);
      assert a == [a[0]] + a[1..] && b == [b[0]] + b[1..];
    }
  }

  lemma {:induction false} LeTransitive(a: string, b: string, c: string)
    requires Le(a, b) && Le(b, c)
    ensures Le(a, c)
  {
    if a != [] && a[0] == b[0] && b[0] == c[0] {
      LeTransitive(a[1..], b[1..], c[1..]);
    }
  }

  predicate Sorted(xs: seq<string>)
  {
    forall i, j :: 0 <= i < j < |xs| ==> Le(xs[i], xs[j]) && xs[i] != xs[j]
  }

  /** Where `x` belongs in a sorted list that does not have it. */
  method Position(xs: seq<string>, x: string) returns (n: nat)
    requires Sorted(xs) && x !in xs
    ensures n <= |xs|
    ensures forall i :: 0 <= i < n ==> Le(xs[i], x)
    ensures forall i :: n <= i < |xs| ==> Le(x, xs[i])
  {
    n := 0;
    while n < |xs| && Le(xs[n], x)
      invariant n <= |xs|
      invariant forall i :: 0 <= i < n ==> Le(xs[i], x)
    {
      n := n + 1;
    }
    forall i | n <= i < |xs|
      ensures Le(x, xs[i])
    {
      LeTotal(xs[n], x);
      if i != n {
        LeTransitive(x, xs[n], xs[i]);
      }
    }
  }

  lemma InsertSorted(xs: seq<string>, x: string, n: nat)
    requires Sorted(xs) && x !in xs && n <= |xs|
    requires forall i :: 0 <= i < n ==> Le(xs[i], x)
    requires forall i :: n <= i < |xs| ==> Le(x, xs[i])
    ensures Sorted(xs[..n] + [x] + xs[n..])
    ensures forall y :: y in xs[..n] + [x] + xs[n..] <==> y in xs || y == x
  {
    var ys := xs[..n] + [x] + xs[n..];
    forall i, j | 0 <= i < j < |ys|
      ensures Le(ys[i], ys[j]) && ys[i] != ys[j]
    {
      InsertedPair(xs, x, n, i, j);
    }
    assert xs == xs[..n] + xs[n..];
  }

  /** Two places of a list into which `x` was inserted at `n`. */
  lemma InsertedPair(xs: seq<string>, x: string, n: nat, i: nat, j: nat)
    requires Sorted(xs) && x !in xs && n <= |xs| && i < j <= |xs|
    requires forall i :: 0 <= i < n ==> Le(xs[i], x)
    requires forall i :: n <= i < |xs| ==> Le(x, xs[i])
    ensures var ys := xs[..n] + [x] + xs[n..];
            Le(ys[i], ys[j]) && ys[i] != ys[j]
  {
    if j < n {
      assert Le(xs[i], xs[j]) && xs[i] != xs[j];
    } else if j == n {
      assert xs[i] in xs;
    } else if i < n {
      LeTransitive(xs[i], x, xs[j - 1]);
      assert xs[i] != xs[j - 1];
    } else if i == n {
      assert xs[j - 1] in xs;
    } else {
      assert Le(xs[i - 1], xs[j - 1]) && xs[i - 1] != xs[j - 1];
    }
  }

  /** Sorts a list without repetitions. */
  method SortStrings(xs: seq<string>) returns (ys: seq<string>)
    requires NoDuplicates(xs)
    ensures Sorted(ys)
    ensures forall x :: x in ys <==> x in xs
    ensures |ys| == |xs|
  {
    ys := [];
    for i := 0 to |xs|
      invariant Sorted(ys) && |ys| == i
      invariant forall x :: x in ys <==> x in xs[..i]
    {
      assert xs[..i + 1] == xs[..i] + [xs[i]];
      assert xs[i] !in ys;
      var n := Position(ys, xs[i]);
      InsertSorted(ys, xs[i], n);
      ys := ys[..n] + [xs[i]] + ys[n..];
    }
    assert xs[..|xs|] == xs;
  }

  lemma FirstIsLeast(xs: seq<string>, ys: seq<string>)
    requires Sorted(xs) && Sorted(ys) && xs != [] && ys != []
    requires forall x :: x in xs <==> x in ys
    ensures xs[0] == ys[0]
  {
    assert xs[0] in ys && ys[0] in xs;
    var i :| 0 <= i < |ys| && ys[i] == xs[0];
    var j :| 0 <= j < |xs| && xs[j] == ys[0];
    if i != 0 && j != 0 {
      LeAntisymmetric(xs[0], ys[0]);
    }
  }

  /** A sorted list is determined by what is in it. */
  lemma {:induction false} SortedUnique(xs: seq<string>, ys: seq<string>)
    requires Sorted(xs) && Sorted(ys)
    requires forall x :: x in xs <==> x in ys
    ensures xs == ys
  {
    assert xs != [] ==> xs[0] in ys;
    assert ys != [] ==> ys[0] in xs;
    if xs != [] && ys != [] {
      FirstIsLeast(xs, ys);
      var x := xs[0];
      assert xs == [x] + xs[1..] && ys == [x] + ys[1..];
      assert forall z :: z in xs[1..] <==> z in xs && z != x;
      assert forall z :: z in ys[1..] <==> z in ys && z != x;
      SortedUnique(xs[1..], ys[1..]);
    }
  }
}
