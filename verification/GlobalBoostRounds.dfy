/**
 What repeated reconciles lead to when nobody interferes and no call fails: after two
 rounds over any global boosts all of them are converged at the same time, although each
 reconcile looks only at one of them.
 */
module GlobalBoostRounds {
  import opened Wrappers
  import opened NamespacedObjects
  import opened Cluster
  import opened ClusterApi
  import opened Convergence
  import opened GlobalBoostController
  import opened GlobalBoostRuns

  // ---------------------------------------------------------------------------
  // One reconcile, seen by the other global boosts
  // ---------------------------------------------------------------------------

  /** A reconcile of `h` that nobody disturbed. */
  ghost predicate Reconciled(s: State, s': State, h: string)
  {
    && ChildrenNamed(s) && OthersKept(s, s', h) && SpecKept(s, s', h)
    && h in s.globals && !s.globals[h].deleting && Converged(s', h)
  }

  /** Every child of `g` is in a namespace that `g` selects and in which there is no other boost. */
  ghost predicate Rightful(s: State, g: string)
  {
    g in s.globals && forall k :: ManagedBy(s, k, g) ==> Desired(s, g, s.globals[g], k.namespace)
  }

  /** A boost that is no child of `h` is the same before and after. */
  lemma OtherBoost(s: State, s': State, h: string, k: Key)
    requires OthersKept(s, s', h)
    requires (k in s.boosts && s.boosts[k].managedBy != Some(h)) ||
             (k in s'.boosts && s'.boosts[k].managedBy != Some(h))
    ensures k in s.boosts && k in s'.boosts && s'.boosts[k] == s.boosts[k]
  {
    assert KeptAt(s, s'.(globals := s.globals), h, k);
  }

  lemma OtherGlobal(s: State, s': State, h: string, g: string)
    requires OthersKept(s, s', h) && g != h
    ensures g in s'.globals <==> g in s.globals
    ensures g in s.globals ==> s'.globals[g] == s.globals[g]
  {
    assert g in s.globals <==> g in s.globals - {h};
    assert g in s'.globals <==> g in s'.globals - {h};
    if g in s.globals {
      assert (s'.globals - {h})[g] == (s.globals - {h})[g];
    }
  }

  /** Where `g` has its child, a reconcile of another global boost puts nothing. */
  lemma ChildBlocks(s: State, s': State, h: string, g: string, k: Key)
    requires Reconciled(s, s', h) && g != h && ManagedBy(s, k, g) && !Foreign(s, g, k.namespace)
    ensures !Foreign(s', g, k.namespace)
  {
    OtherBoost(s, s', h, k);
    assert Foreign(s', h, k.namespace);
    forall k' | k' in s'.boosts && k'.namespace == k.namespace
      ensures s'.boosts[k'].managedBy == Some(g)
    {
      assert !ManagedBy(s', k', h);
      OtherBoost(s, s', h, k');
    }
  }

  lemma RightfulStays(s: State, s': State, h: string, g: string)
    requires Reconciled(s, s', h) && g != h && Rightful(s, g)
    ensures Rightful(s', g)
  {
    OtherGlobal(s, s', h, g);
    forall k | ManagedBy(s', k, g)
      ensures Desired(s', g, s'.globals[g], k.namespace)
    {
      OtherBoost(s, s', h, k);
      ChildBlocks(s, s', h, g, k);
    }
  }

  /** For a namespace that `g` selects, a reconcile of `h` whose children are rightful changes nothing. */
  lemma ForeignStays(s: State, s': State, h: string, g: string, ns: string)
    requires Reconciled(s, s', h) && Rightful(s, h) && g != h && Converged(s, g) && Selected(s, s.globals[g], ns)
    ensures Foreign(s', g, ns) <==> Foreign(s, g, ns)
  {
    if Foreign(s, g, ns) {
      var k :| k in s.boosts && k.namespace == ns && s.boosts[k].managedBy != Some(g);
      if s.boosts[k].managedBy == Some(h) {
        RightfulChildStays(s, s', h, k);
      } else {
        OtherBoost(s, s', h, k);
      }
    } else {
      assert Desired(s, g, s.globals[g], ns);
      var k := ChildKey(g, ns);
      assert ManagedBy(s, k, g);
      ChildBlocks(s, s', h, g, k);
    }
  }

  /** A rightful child of the global boost that is reconciled stays. */
  lemma RightfulChildStays(s: State, s': State, h: string, k: Key)
    requires Reconciled(s, s', h) && Rightful(s, h) && ManagedBy(s, k, h)
    ensures ManagedBy(s', k, h)
  {
    forall k' | k' in s'.boosts && k'.namespace == k.namespace
      ensures s'.boosts[k'].managedBy == Some(h)
    {
      if s'.boosts[k'].managedBy != Some(h) {
        OtherBoost(s, s', h, k');
      }
    }
    assert Desired(s', h, s'.globals[h], k.namespace);
  }

  /** Once all children are rightful, a reconcile of one global boost keeps the others converged. */
  lemma ConvergedStays(s: State, s': State, h: string, g: string)
    requires Reconciled(s, s', h) && Rightful(s, h) && g != h && Converged(s, g)
    ensures Converged(s', g)
  {
    OtherGlobal(s, s', h, g);
    var gb := s.globals[g];
    forall ns
      ensures Selected(s', gb, ns) <==> Selected(s, gb, ns)
      ensures Selected(s, gb, ns) ==> (Foreign(s', g, ns) <==> Foreign(s, g, ns))
      ensures Desired(s', g, gb, ns) <==> Desired(s, g, gb, ns)
    {
      if Selected(s, gb, ns) {
        ForeignStays(s, s', h, g, ns);
      }
    }
    forall k
      ensures ManagedBy(s', k, g) <==> ManagedBy(s, k, g)
      ensures ManagedBy(s, k, g) ==> s'.boosts[k] == s.boosts[k]
    {
      if ManagedBy(s, k, g) || ManagedBy(s', k, g) {
        OtherBoost(s, s', h, k);
      }
    }
  }

  // ---------------------------------------------------------------------------
  // Rounds
  // ---------------------------------------------------------------------------

  /** The state in which step `i` of a run begins, and the last one for `i` at the end. */
  function StateAt(o: Origin, steps: seq<Step>, i: nat): State
    requires i <= |steps|
  {
    if i == 0 then o.s else steps[i - 1].after
  }

  lemma {:induction false} StepsAreLater(script: Script, start: State, o: Origin, requests: seq<string>,
                                         steps: seq<Step>, i: nat)
    requires IsRun(script, start, o, requests, steps) && i < |steps|
    ensures steps[i].from > o.time
  {
    assert StepAt(script, start, o, requests, steps, i);
    if i == 0 {
    } else {
      StepsAreLater(script, start, o, requests, steps, i - 1);
      assert StepAt(script, start, o, requests, steps, i - 1);
    }
  }

  /** In a peaceful run every reconcile begins where the one before it ended, and does what it can. */
  lemma PeacefulStep(script: Script, start: State, o: Origin, requests: seq<string>, steps: seq<Step>, i: nat)
    requires IsRun(script, start, o, requests, steps) && Peace(script, o.time) && i < |steps|
    ensures var s, s', g := StateAt(o, steps, i), StateAt(o, steps, i + 1), requests[i];
            Inv(s) && OthersKept(s, s', g) && SpecKept(s, s', g) && Served(s, s', g, steps[i].result)
  {
    assert StepAt(script, start, o, requests, steps, i);
    StepsAreLater(script, start, o, requests, steps, i);
    PeaceCounts(script, o.time, steps[i].from);
    PeaceCounts(script, o.time, steps[i].to);
    if i > 0 {
      StepsAreLater(script, start, o, requests, steps, i - 1);
      assert StepAt(script, start, o, requests, steps, i - 1);
    }
  }

  /** All of these are to be distributed and carry the finalizer. */
  ghost predicate AllReady(s: State, requests: seq<string>)
  {
    forall g :: g in requests ==> Live(s, g) && HasFinalizer(s, g)
  }

  ghost predicate AllRightful(s: State, requests: seq<string>)
  {
    forall g :: g in requests ==> Rightful(s, g)
  }

  ghost predicate AllConverged(s: State, requests: seq<string>)
  {
    forall g :: g in requests ==> Converged(s, g)
  }

  lemma ReadyStays(s: State, s': State, h: string, requests: seq<string>)
    requires AllReady(s, requests) && h in requests && OthersKept(s, s', h) && Converged(s', h)
    ensures AllReady(s', requests)
  {
    forall g | g in requests
      ensures Live(s', g) && HasFinalizer(s', g)
    {
      if g != h {
        OtherGlobal(s, s', h, g);
      }
    }
  }

  /**
   In a peaceful run over ready global boosts all stay ready, and those that had their
   turn have rightful children.
   */
  lemma {:induction false} FirstRound(script: Script, start: State, o: Origin, requests: seq<string>, steps: seq<Step>,
                                      n: nat)
    requires IsRun(script, start, o, requests, steps) && Peace(script, o.time) && n <= |steps|
    requires AllReady(o.s, requests)
    ensures AllReady(StateAt(o, steps, n), requests) && AllRightful(StateAt(o, steps, n), requests[..n])
  {
    if n == 0 {
    } else {
      FirstRound(script, start, o, requests, steps, n - 1);
      PeacefulStep(script, start, o, requests, steps, n - 1);
      var s, s', h := StateAt(o, steps, n - 1), StateAt(o, steps, n), requests[n - 1];
      ReadyStays(s, s', h, requests);
      forall g | g in requests[..n]
        ensures Rightful(s', g)
      {
        if g != h {
          assert g in requests[..n - 1];
          RightfulStays(s, s', h, g);
        }
      }
    }
  }

  /** After a round, those that had another turn are converged, all at the same time. */
  lemma {:induction false} SecondRound(script: Script, start: State, o: Origin, requests: seq<string>, steps: seq<Step>,
                                       m: nat, n: nat)
    requires IsRun(script, start, o, requests, steps) && Peace(script, o.time) && m <= n <= |steps|
    requires AllReady(o.s, requests) && forall g :: g in requests ==> g in requests[..m]
    ensures AllConverged(StateAt(o, steps, n), requests[m..n])
    decreases n
  {
    if m == n {
    } else {
      SecondRound(script, start, o, requests, steps, m, n - 1);
      FirstRound(script, start, o, requests, steps, n - 1);
      PeacefulStep(script, start, o, requests, steps, n - 1);
      var s, s', h := StateAt(o, steps, n - 1), StateAt(o, steps, n), requests[n - 1];
      assert h in requests && h in requests[..m];
      var j :| 0 <= j < m && requests[..m][j] == h;
      assert requests[..n - 1][j] == h;
      forall g | g in requests[m..n]
        ensures Converged(s', g)
      {
        if g != h {
          assert g in requests[m..n - 1];
          ConvergedStays(s, s', h, g);
        }
      }
    }
  }

  /**
   Nobody interferes, no call fails, and the reconciles are two rounds over some global
   boosts that are to be distributed, in any order and with repetitions: then all of them
   are converged at the same time, whatever the cluster looked like before.
   */
  lemma TwoRoundsConverge(script: Script, start: State, o: Origin, first: seq<string>, second: seq<string>,
                          steps: seq<Step>)
    requires IsRun(script, start, o, first + second, steps) && Peace(script, o.time)
    requires forall g :: g in first <==> g in second
    requires AllReady(o.s, first)
    ensures AllConverged(End(o, steps).s, second)
  {
    var requests, m := first + second, |first|;
    assert requests[..m] == first && requests[m..] == second;
    SecondRound(script, start, o, requests, steps, m, |steps|);
  }

  /** The rest of a run is a run from where its beginning leads. */
  lemma RunSuffix(script: Script, start: State, o: Origin, requests: seq<string>, steps: seq<Step>, m: nat)
    requires IsRun(script, start, o, requests, steps) && m <= |steps|
    ensures IsRun(script, start, End(o, steps[..m]), requests[m..], steps[m..])
    ensures End(End(o, steps[..m]), steps[m..]) == End(o, steps)
    ensures End(o, steps[..m]).time >= o.time
  {
    var o', requests', steps' := End(o, steps[..m]), requests[m..], steps[m..];
    forall i
      ensures StepAt(script, start, o', requests', steps', i)
    {
      assert StepAt(script, start, o, requests, steps, m + i);
    }
    if m > 0 {
      StepsAreLater(script, start, o, requests, steps, m - 1);
      assert StepAt(script, start, o, requests, steps, m - 1);
    }
  }

  ghost predicate AllLive(s: State, requests: seq<string>)
  {
    forall g :: g in requests ==> Live(s, g)
  }

  /** A round puts the missing finalizers on. */
  lemma {:induction false} FinalizerRound(script: Script, start: State, o: Origin, requests: seq<string>,
                                          steps: seq<Step>, n: nat)
    requires IsRun(script, start, o, requests, steps) && Peace(script, o.time) && n <= |steps|
    requires AllLive(o.s, requests)
    ensures AllLive(StateAt(o, steps, n), requests) && AllReady(StateAt(o, steps, n), requests[..n])
  {
    if n == 0 {
    } else {
      FinalizerRound(script, start, o, requests, steps, n - 1);
      PeacefulStep(script, start, o, requests, steps, n - 1);
      var s, s', h := StateAt(o, steps, n - 1), StateAt(o, steps, n), requests[n - 1];
      forall g | g in requests
        ensures Live(s', g) && (g in requests[..n] ==> HasFinalizer(s', g))
      {
        if g != h {
          OtherGlobal(s, s', h, g);
          assert g in requests[..n] ==> g in requests[..n - 1];
        }
      }
    }
  }

  /** Without the assumption about finalizers it takes one more round. */
  lemma ThreeRoundsConverge(script: Script, start: State, o: Origin, first: seq<string>, second: seq<string>,
                            third: seq<string>, steps: seq<Step>)
    requires IsRun(script, start, o, first + (second + third), steps) && Peace(script, o.time)
    requires forall g :: g in first <==> g in second
    requires forall g :: g in second <==> g in third
    requires AllLive(o.s, first)
    ensures AllConverged(End(o, steps).s, third)
  {
    var requests, m := first + (second + third), |first|;
    assert requests[..m] == first && requests[m..] == second + third;
    FinalizerRound(script, start, o, requests, steps, m);
    RunSuffix(script, start, o, requests, steps, m);
    TwoRoundsConverge(script, start, End(o, steps[..m]), second, third, steps[m..]);
  }

  /**
   One round is not enough: `b` selects a namespace whose only boost is a child of `c`,
   which does not select it any more. If `b` has its turn before `c`, then afterwards the
   namespace is free and `b` has no child there.
   */
  lemma OneRoundMayMiss(s: State, s1: State, s2: State, b: string, c: string, k: Key)
    requires Reconciled(s, s1, b) && Reconciled(s1, s2, c) && b != c && c in s.globals
    requires ManagedBy(s, k, c) && forall k' :: k' in s.boosts && k'.namespace == k.namespace ==> k' == k
    requires Selected(s, s.globals[b], k.namespace) && !Selected(s, s.globals[c], k.namespace)
    ensures b in s2.globals && Desired(s2, b, s2.globals[b], k.namespace)
    ensures !ManagedBy(s2, ChildKey(b, k.namespace), b) && !Converged(s2, b)
  {
    var ns := k.namespace;
    OtherBoost(s, s1, b, k);
    OtherGlobal(s, s1, b, c);
    OtherGlobal(s1, s2, c, b);
    assert Foreign(s1, b, ns) && !Selected(s2, s2.globals[c], ns);
    forall k': Key | k'.namespace == ns
      ensures k' !in s2.boosts
    {
      assert !ManagedBy(s2, k', c) && !ManagedBy(s1, k', b);
      if k' in s2.boosts {
        OtherBoost(s1, s2, c, k');
        OtherBoost(s, s1, b, k');
      }
    }
  }
}
