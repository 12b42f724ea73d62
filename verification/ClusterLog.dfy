/**
 What the writes of one reconcile of a global boost `g` have in common, whatever users
 do meanwhile. Every write goes to the child name of `g` or to `g` itself; only boosts
 labelled with `g` are created, updated or taken for deletion; and a deletion hits a
 boost without that label only if users put it there after the child had been read.
 */
module ClusterLog {
  import opened Wrappers
  import opened NamespacedObjects
  import opened Cluster
  import opened ClusterApi

  /** The deletion meets a boost that does not carry the label that was read. */
  predicate HitsOther(w: Write)
  {
    w.Delete? && w.found.Some? && w.found.value.managedBy != w.read.managedBy
  }

  /** In turn `i` users acted, and in a way that is open to them. */
  ghost predicate Acted(script: Script, start: State, log: seq<Write>, i: nat)
  {
    script(i).users.Some? && UserMay(Replay(script, log, start, i), script(i).users.value)
  }

  /** Turn `i` is the last one from `m` on before `n` in which users acted. */
  ghost predicate LastActed(script: Script, start: State, log: seq<Write>, m: nat, n: nat, i: nat)
  {
    m <= i < n && Acted(script, start, log, i) && forall j: nat :: i < j < n ==> !Acted(script, start, log, j)
  }

  /** What is under the key after turn `n`, if only users touch it from turn `m` on. */
  ghost function LeftUnder(script: Script, start: State, log: seq<Write>, k: Key, m: nat, n: nat): Option<Boost>
    requires m <= n
  {
    if m == n then At(Replay(script, log, start, m), k)
    else if Acted(script, start, log, n - 1) then At(script(n - 1).users.value, k)
    else LeftUnder(script, start, log, k, m, n - 1)
  }

  /** A write for `g`, where `log` is what was logged before. */
  ghost predicate GoodWrite(script: Script, start: State, log: seq<Write>, w: Write, g: string)
  {
    match w
    case Create(k, b, _) => k.name == ChildName(g) && b.managedBy == Some(g)
    case Update(k, read, b, _) => k.name == ChildName(g) && read.managedBy == Some(g) && b.managedBy == Some(g)
    case Delete(k, read, found, readAt, at) =>
      && k.name == ChildName(g) && read.managedBy == Some(g) && readAt < at
      && At(Replay(script, log, start, readAt), k) == Some(read)
      && found == LeftUnder(script, start, log, k, readAt, at)
      && (found.Some? ==> found.value.managedBy == Some(g) || found.value.managedBy.None?)
    case Global(h, _, _, _) => h == g
  }

  lemma {:induction false} LeftByLast(script: Script, start: State, log: seq<Write>, k: Key, m: nat, n: nat, i: nat)
    requires LastActed(script, start, log, m, n, i)
    ensures LeftUnder(script, start, log, k, m, n) == At(script(i).users.value, k)
    decreases n
  {
    if i == n - 1 {
    } else {
      assert !Acted(script, start, log, n - 1);
      LeftByLast(script, start, log, k, m, n - 1, i);
    }
  }

  lemma {:induction false} LeftByNobody(script: Script, start: State, log: seq<Write>, k: Key, m: nat, n: nat)
    requires m <= n && forall j: nat :: m <= j < n ==> !Acted(script, start, log, j)
    ensures LeftUnder(script, start, log, k, m, n) == At(Replay(script, log, start, m), k)
  {
    if m == n {
    } else {
      assert !Acted(script, start, log, n - 1);
      LeftByNobody(script, start, log, k, m, n - 1);
    }
  }

  lemma {:induction false} SomeLastActed(script: Script, start: State, log: seq<Write>, m: nat, n: nat, j: nat)
      returns (i: nat)
    requires m <= j < n && Acted(script, start, log, j)
    ensures LastActed(script, start, log, m, n, i)
    decreases n
  {
    if Acted(script, start, log, n - 1) {
      i := n - 1;
    } else {
      i := SomeLastActed(script, start, log, m, n - 1, j);
    }
  }

  /** Between the read and the deletion users acted, and at last left an unlabelled boost under the key. */
  ghost predicate Replaced(script: Script, start: State, log: seq<Write>, k: Key, m: nat, n: nat)
  {
    exists i: nat ::
      && LastActed(script, start, log, m, n, i)
      && k in script(i).users.value.boosts && script(i).users.value.boosts[k].managedBy.None?
  }

  /**
   A deletion hits a boost that is no child of `g` if and only if users acted between
   the read and the deletion, and what they last left under the key is an unlabelled
   boost.
   */
  lemma DeleteHitsOtherIff(script: Script, start: State, log: seq<Write>, w: Write, g: string)
    requires GoodWrite(script, start, log, w, g) && w.Delete?
    ensures HitsOther(w) <==> Replaced(script, start, log, w.key, w.readAt, w.at)
  {
    if j: nat :| w.readAt <= j < w.at && Acted(script, start, log, j) {
      var i := SomeLastActed(script, start, log, w.readAt, w.at, j);
      LeftByLast(script, start, log, w.key, w.readAt, w.at, i);
      if Replaced(script, start, log, w.key, w.readAt, w.at) {
        var i': nat :| && LastActed(script, start, log, w.readAt, w.at, i')
                       && w.key in script(i').users.value.boosts
                       && script(i').users.value.boosts[w.key].managedBy.None?;
        LeftByLast(script, start, log, w.key, w.readAt, w.at, i');
      }
    } else {
      LeftByNobody(script, start, log, w.key, w.readAt, w.at);
    }
  }

  /** A creation of that key is among the writes from `m` on before `n`. */
  ghost predicate Creates(log: seq<Write>, m: int, n: int, k: Key)
  {
    exists i :: m <= i < n && 0 <= i < |log| && log[i].Create? && log[i].key == k
  }

  /** A child of `g` in `s'` was one in `s` or was created since. */
  ghost predicate Accounted(s: State, n: nat, s': State, log: seq<Write>, g: string, k: Key)
  {
    ManagedBy(s', k, g) ==> ManagedBy(s, k, g) || Creates(log, n, |log|, k)
  }

  /** The write is a good one, and a deletion is one of a child in `s` or of one created since. */
  ghost predicate GoodAt(script: Script, start: State, s: State, n: nat, log: seq<Write>, g: string, i: nat)
  {
    n <= i < |log| ==>
      && GoodWrite(script, start, log[..i], log[i], g)
      && (log[i].Delete? ==> ManagedBy(s, log[i].key, g) || Creates(log, n, i, log[i].key))
  }

  /** How the log grew, from `n` on, on the way from `s` to `s'`. */
  ghost predicate Traced(script: Script, start: State, s: State, n: nat, s': State, log: seq<Write>, g: string)
  {
    && n <= |log|
    && (forall k {:trigger Accounted(s, n, s', log, g, k)} :: Accounted(s, n, s', log, g, k))
    && (forall i {:trigger GoodAt(script, start, s, n, log, g, i)} :: GoodAt(script, start, s, n, log, g, i))
  }

  lemma TracedNothing(script: Script, start: State, s: State, s': State, log: seq<Write>, g: string)
    requires UserMay(s, s')
    ensures Traced(script, start, s, |log|, s', log, g)
  {
    forall k
      ensures Accounted(s, |log|, s', log, g, k)
    {
    }
  }

  lemma CreatesLonger(log: seq<Write>, log': seq<Write>, m: int, n: int, k: Key)
    requires log <= log' && n <= |log|
    ensures Creates(log', m, n, k) <==> Creates(log, m, n, k)
  {
    if Creates(log', m, n, k) {
      var i :| m <= i < n && 0 <= i < |log'| && log'[i].Create? && log'[i].key == k;
      assert log'[i] == log[i];
    }
    if Creates(log, m, n, k) {
      var i :| m <= i < n && 0 <= i < |log| && log[i].Create? && log[i].key == k;
      assert log'[i] == log[i];
    }
  }

  lemma TracedTransitive(script: Script, start: State, s: State, n: nat, s': State, log: seq<Write>, s'': State,
                         log': seq<Write>,
                         g: string)
    requires Traced(script, start, s, n, s', log, g) && Traced(script, start, s', |log|, s'', log', g) && log <= log'
    ensures Traced(script, start, s, n, s'', log', g)
  {
    forall k
      ensures Accounted(s, n, s'', log', g, k)
    {
      assert Accounted(s', |log|, s'', log', g, k) && Accounted(s, n, s', log, g, k);
      CreatesLonger(log, log', n, |log|, k);
    }
    forall i: nat
      ensures GoodAt(script, start, s, n, log', g, i)
    {
      if n <= i < |log| {
        assert GoodAt(script, start, s, n, log, g, i) && log'[i] == log[i] && log'[..i] == log[..i];
        if log[i].Delete? {
          CreatesLonger(log, log', n, i, log[i].key);
        }
      } else if |log| <= i < |log'| {
        assert GoodAt(script, start, s', |log|, log', g, i);
        if log'[i].Delete? && ManagedBy(s', log'[i].key, g) {
          assert Accounted(s, n, s', log, g, log'[i].key);
          CreatesLonger(log, log', n, |log|, log'[i].key);
        }
      }
    }
  }

  /** A write that is no deletion, after users acted: the state found gains at most a child that the write creates. */
  lemma TracedWrite(script: Script, start: State, s: State, found: State, s': State, log: seq<Write>, w: Write,
                    g: string)
    requires UserMay(s, found) && GoodWrite(script, start, log, w, g) && !w.Delete?
    requires forall k :: ManagedBy(s', k, g) ==> ManagedBy(found, k, g) || (w.Create? && w.key == k)
    ensures Traced(script, start, s, |log|, s', log + [w], g)
  {
    var log' := log + [w];
    forall k
      ensures Accounted(s, |log|, s', log', g, k)
    {
      if w.Create? && w.key == k {
        assert log'[|log|].Create?;
      }
    }
    assert log'[..|log|] == log;
    forall i: nat
      ensures GoodAt(script, start, s, |log|, log', g, i)
    {
    }
  }

  /** The deletion of a child that was there when the trace began. */
  lemma TracedDelete(script: Script, start: State, s: State, n: nat, before: State, log: seq<Write>, found: State,
                     s': State,
                     w: Write, g: string)
    requires Traced(script, start, s, n, before, log, g) && UserMay(before, found) &&
             GoodWrite(script, start, log, w, g) && w.Delete?
    requires ManagedBy(s, w.key, g)
    requires forall k :: ManagedBy(s', k, g) ==> ManagedBy(found, k, g)
    ensures Traced(script, start, s, n, s', log + [w], g)
  {
    var log' := log + [w];
    forall k
      ensures Accounted(s, n, s', log', g, k)
    {
      assert Accounted(s, n, before, log, g, k);
      CreatesLonger(log, log', n, |log|, k);
    }
    assert log'[..|log|] == log;
    forall i: nat
      ensures GoodAt(script, start, s, n, log', g, i)
    {
      if n <= i < |log| {
        assert GoodAt(script, start, s, n, log, g, i) && log'[i] == log[i] && log'[..i] == log[..i];
        if log[i].Delete? {
          CreatesLonger(log, log', n, i, log[i].key);
        }
      }
    }
  }

  /**
   A boost that was no child of `g` at the beginning, under a key where no child was
   created since, was not deleted.
   */
  lemma OthersNotDeleted(script: Script, start: State, s: State, n: nat, s': State, log: seq<Write>, g: string, i: nat)
    requires Traced(script, start, s, n, s', log, g) && n <= i < |log| && log[i].Delete?
    requires !ManagedBy(s, log[i].key, g)
    ensures Creates(log, n, i, log[i].key)
  {
    assert GoodAt(script, start, s, n, log, g, i);
  }

  // ---------------------------------------------------------------------------
  // Between a read and a deletion
  // ---------------------------------------------------------------------------

  /** `read` was under the key at `readAt`, and since then nobody but users touched the key. */
  ghost predicate Watched(script: Script, start: State, log: seq<Write>, readAt: nat, now: nat, s: State, k: Key,
                          read: Boost)
  {
    && readAt <= now
    && At(Replay(script, log, start, readAt), k) == Some(read)
    && At(s, k) == LeftUnder(script, start, log, k, readAt, now)
  }

  lemma WatchedFirst(script: Script, start: State, log: seq<Write>, readAt: nat, s: State, k: Key, read: Boost)
    requires Replayed(script, log, start, readAt, s) && At(s, k) == Some(read)
    ensures Watched(script, start, log, readAt, readAt, s, k, read)
  {
    assert ReplayedAt(script, log, start, readAt, s, readAt);
  }

  /** What a deletion of the key finds. */
  lemma WatchedTurn(script: Script, start: State, log: seq<Write>, readAt: nat, now: nat, s: State, k: Key, read: Boost)
    requires Replayed(script, log, start, now, s) && Watched(script, start, log, readAt, now, s, k, read)
    ensures At(UsersTurn(script(now), s), k) == LeftUnder(script, start, log, k, readAt, now + 1)
  {
    assert ReplayedAt(script, log, start, now, s, now);
  }

  lemma {:induction false} LeftIgnoresLater(script: Script, start: State, log: seq<Write>, w: Write, k: Key, m: nat,
                                            n: nat)
    requires m <= n < w.at
    ensures LeftUnder(script, start, log + [w], k, m, n) == LeftUnder(script, start, log, k, m, n)
  {
    if m == n {
      ReplayIgnoresLater(script, log, w, start, m);
    } else {
      ReplayIgnoresLater(script, log, w, start, n - 1);
      LeftIgnoresLater(script, start, log, w, k, m, n - 1);
    }
  }

  /** A key stays watched while another one is deleted. */
  lemma WatchedOther(script: Script, start: State, log: seq<Write>, readAt: nat, now: nat, s: State, k: Key,
                     read: Boost,
                     w: Write)
    requires Replayed(script, log, start, now, s) && Watched(script, start, log, readAt, now, s, k, read)
    requires w.Delete? && w.key != k && w.at == now + 1
    ensures var s' := Effect(script(now), UsersTurn(script(now), s), w);
            Watched(script, start, log + [w], readAt, now + 1, s', k, read)
  {
    WatchedTurn(script, start, log, readAt, now, s, k, read);
    ReplayIgnoresLater(script, log, w, start, readAt);
    ReplayIgnoresLater(script, log, w, start, now);
    LeftIgnoresLater(script, start, log, w, k, readAt, now);
  }

  /** What is found under a child name is a child of `g` or carries no label. */
  lemma LabelOfChildName(s: State, k: Key, g: string)
    requires ChildrenNamed(s) && k in s.boosts && k.name == ChildName(g)
    ensures s.boosts[k].managedBy == Some(g) || s.boosts[k].managedBy.None?
  {
    if s.boosts[k].managedBy.Some? {
      assert ManagedBy(s, k, s.boosts[k].managedBy.value);
      ChildNameInjective(g, s.boosts[k].managedBy.value);
    }
  }
}
