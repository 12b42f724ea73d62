/**
 The boost manager: registered boosts, the index of boosts with a fixed duration, and
 pods that no registered boost matches.
 */
module Manager {
  import opened Wrappers
  import opened Selectors
  import opened Pods
  import opened NamespacedObjects
  import opened Tracker
  import Pipeline
  import PipelineProofs
  import PipelineProgress
  import RevertModes

  datatype RevertTask = RevertTask(boost: StartupCpuBoost, pod: Pod)

  /** The pod is tracked by that boost and its fixed duration has expired. */
  ghost predicate Violates(boosts: map<Key, StartupCpuBoost>, t: Pipeline.Task, now: int)
    reads if t.boost in boosts then {boosts[t.boost]} else {}
  {
    && t.boost in boosts
    && t.pod in boosts[t.boost].pods
    && boosts[t.boost].Expired(boosts[t.boost].pods[t.pod], now)
  }

  predicate OkAt(reverts: seq<Revert>, i: int)
  {
    0 <= i < |reverts| ==> reverts[i].ok
  }

  ghost predicate AllOk(reverts: seq<Revert>)
  {
    forall i {:trigger OkAt(reverts, i)} :: OkAt(reverts, i)
  }

  lemma AllOkTogether(a: seq<Revert>, b: seq<Revert>)
    ensures AllOk(a + b) <==> AllOk(a) && AllOk(b)
  {
    if AllOk(a + b) {
      forall i
        ensures OkAt(a, i) && OkAt(b, i)
      {
        assert OkAt(a + b, i) && OkAt(a + b, |a| + i);
      }
    } else if AllOk(a) && AllOk(b) {
      forall i
        ensures OkAt(a + b, i)
      {
        assert OkAt(a, i) && OkAt(b, i - |a|);
      }
    }
  }

  lemma AllOkNone()
    ensures AllOk([])
  {
  }

  lemma AllOkOne(r: Revert)
    ensures AllOk([]) && (AllOk([r]) <==> r.ok)
  {
    assert OkAt([r], 0) <==> r.ok;
  }

  lemma AllOkHas(reverts: seq<Revert>, r: Revert)
    requires AllOk(reverts) && r in reverts
    ensures r.ok
  {
    var i :| 0 <= i < |reverts| && reverts[i] == r;
    assert OkAt(reverts, i);
  }

  ghost predicate MetAt(condition: Option<PodCondition>, made: seq<Revert>, r: Revert)
  {
    r in made ==> Met(condition, r.pod)
  }

  /** Only pods whose condition had been met were reverted. */
  ghost predicate AllMet(condition: Option<PodCondition>, made: seq<Revert>)
  {
    forall r {:trigger MetAt(condition, made, r)} :: MetAt(condition, made, r)
  }

  ghost predicate WithinAt(some: seq<Revert>, made: seq<Revert>, r: Revert)
  {
    r in some ==> r in made
  }

  ghost predicate Within(some: seq<Revert>, made: seq<Revert>)
  {
    forall r {:trigger WithinAt(some, made, r)} :: WithinAt(some, made, r)
  }

  lemma MadeTogether(condition: Option<PodCondition>, mapped: seq<Revert>, synced: seq<Revert>)
    requires AllMet(condition, mapped) && AllMet(condition, synced)
    ensures AllMet(condition, mapped + synced) && Within(synced, mapped + synced)
    ensures AllOk(mapped + synced) <==> AllOk(mapped) && AllOk(synced)
  {
    forall r
      ensures MetAt(condition, mapped + synced, r)
    {
      assert MetAt(condition, mapped, r) && MetAt(condition, synced, r);
    }
    AllOkTogether(mapped, synced);
  }

  predicate TrueAt(server: Answers, reverts: seq<Revert>, i: nat)
  {
    i < |reverts| ==> reverts[i].ok == server.attempt(i, reverts[i].pod).ok
  }

  /** The log says of every revert what the API server answered. */
  ghost predicate Truthful(server: Answers, reverts: seq<Revert>)
  {
    forall i {:trigger TrueAt(server, reverts, i)} :: TrueAt(server, reverts, i)
  }

  lemma TruthfulMore(server: Answers, reverts: seq<Revert>, r: Revert)
    requires Truthful(server, reverts) && r.ok == server.attempt(|reverts|, r.pod).ok
    ensures Truthful(server, reverts + [r])
  {
    forall i
      ensures TrueAt(server, reverts + [r], i)
    {
      assert TrueAt(server, reverts, i);
    }
  }

  ghost predicate DistinctPods(pods: seq<Pod>)
  {
    forall i, j :: 0 <= i < j < |pods| ==> pods[i].name != pods[j].name
  }

  /** The revert was one of an offered pod that matches and whose condition had been met. */
  ghost predicate HandedRevert(selector: Selector, condition: Option<PodCondition>, offered: seq<Pod>,
                               made: seq<Revert>,
                               r: Revert)
  {
    r in made ==> r.pod in offered && Selectors.Matches(selector, r.pod.labels) && Met(condition, r.pod)
  }

  /** The pod is mapped if it matches and was upserted without an error, and then it is tracked or was reverted. */
  ghost predicate HandedPod(selector: Selector, condition: Option<PodCondition>, tracked: map<string, Pod>,
                            offered: seq<Pod>, mapped: seq<Pod>, made: seq<Revert>, p: Pod)
  {
    && (p in mapped <==> p in offered && Selectors.Matches(selector, p.labels) && Revert(p, false) !in made)
    && (p in mapped ==> p.name in tracked || (Met(condition, p) && Revert(p, true) in made))
  }

  /**
   Of the pods in `offered`, those that match have been upserted: `mapped` are the ones
   without an error, `made` the reverts. A mapped pod is tracked, or it was reverted
   because its condition had been met.
   */
  ghost predicate HandedOver(selector: Selector, condition: Option<PodCondition>, tracked: map<string, Pod>,
                             offered: seq<Pod>, mapped: seq<Pod>, made: seq<Revert>)
  {
    && (forall r {:trigger HandedRevert(selector, condition, offered, made, r)} ::
          HandedRevert(selector, condition, offered, made, r))
    && (forall p {:trigger HandedPod(selector, condition, tracked, offered, mapped, made, p)} ::
          HandedPod(selector, condition, tracked, offered, mapped, made, p))
  }

  lemma OtherNames(offered: seq<Pod>, pod: Pod, p: Pod)
    requires DistinctPods(offered + [pod]) && p in offered
    ensures p.name != pod.name
  {
    var i :| 0 <= i < |offered| && offered[i] == p;
    assert (offered + [pod])[i] == p && (offered + [pod])[|offered|] == pod;
  }

  lemma HandedOverMatching(selector: Selector, condition: Option<PodCondition>,
                           tracked: map<string, Pod>, tracked': map<string, Pod>,
                           offered: seq<Pod>, mapped: seq<Pod>, made: seq<Revert>, pod: Pod, ok: bool)
    requires HandedOver(selector, condition, tracked, offered, mapped, made)
    requires DistinctPods(offered + [pod]) && Selectors.Matches(selector, pod.labels)
    requires (!Met(condition, pod) ==> ok) && (pod.name in tracked' <==> !(Met(condition, pod) && ok))
    requires forall n :: n != pod.name ==> (n in tracked' <==> n in tracked)
    ensures HandedOver(selector, condition, tracked', offered + [pod], if ok then mapped + [pod] else mapped,
                       made + (if Met(condition, pod) then [Revert(pod, ok)] else []))
  {
    var offered', mapped' := offered + [pod], if ok then mapped + [pod] else mapped;
    var made' := made + (if Met(condition, pod) then [Revert(pod, ok)] else []);
    forall r
      ensures HandedRevert(selector, condition, offered', made', r)
    {
      assert HandedRevert(selector, condition, offered, made, r);
    }
    forall p
      ensures HandedPod(selector, condition, tracked', offered', mapped', made', p)
    {
      assert HandedPod(selector, condition, tracked, offered, mapped, made, p);
      if p in offered {
        OtherNames(offered, pod, p);
      } else {
        assert HandedRevert(selector, condition, offered, made, Revert(p, false));
      }
    }
  }

  lemma HandedOverOther(selector: Selector, condition: Option<PodCondition>, tracked: map<string, Pod>,
                        offered: seq<Pod>, mapped: seq<Pod>, made: seq<Revert>, pod: Pod)
    requires HandedOver(selector, condition, tracked, offered, mapped, made) && !Selectors.Matches(selector, pod.labels)
    ensures HandedOver(selector, condition, tracked, offered + [pod], mapped, made)
  {
    var offered' := offered + [pod];
    forall r
      ensures HandedRevert(selector, condition, offered', made, r)
    {
      assert HandedRevert(selector, condition, offered, made, r);
    }
    forall p
      ensures HandedPod(selector, condition, tracked, offered', mapped, made, p)
    {
      assert HandedPod(selector, condition, tracked, offered, mapped, made, p);
    }
  }

  /** The boost after it was offered these pods, of which it upserts those that match. */
  function MapState(server: Answers, selector: Selector, s: Snapshot, offered: seq<Pod>): Snapshot
  {
    if offered == [] then s
    else
      var before, pod := MapState(server, selector, s, offered[..|offered| - 1]), offered[|offered| - 1];
      if Selectors.Matches(selector, pod.labels) then AfterUpsert(server, before, pod) else before
  }

  /** Those of the offered pods that match and are upserted without an error. */
  function MapPods(server: Answers, selector: Selector, s: Snapshot, offered: seq<Pod>): seq<Pod>
  {
    if offered == [] then []
    else
      var before, pod := MapState(server, selector, s, offered[..|offered| - 1]), offered[|offered| - 1];
      MapPods(server, selector, s, offered[..|offered| - 1]) +
      (if Selectors.Matches(selector, pod.labels) && UpsertOk(server, before, pod) then [pod] else [])
  }

  /** What is left of those that match and whose upsert fails: the copies that the failed attempts worked on. */
  function MapFailed(server: Answers, selector: Selector, s: Snapshot, offered: seq<Pod>): seq<Pod>
  {
    if offered == [] then []
    else
      var before, pod := MapState(server, selector, s, offered[..|offered| - 1]), offered[|offered| - 1];
      MapFailed(server, selector, s, offered[..|offered| - 1]) +
      (if Selectors.Matches(selector, pod.labels) && !UpsertOk(server, before, pod)
       then [LocalAfter(server, |before.reverts|, pod)] else [])
  }

  /** The orphans when these have changed. */
  function Refiled(orphans: map<Key, Pod>, pods: seq<Pod>): map<Key, Pod>
  {
    if pods == [] then orphans
    else
      var pod := pods[|pods| - 1];
      Refiled(orphans, pods[..|pods| - 1])[Key(pod.namespace, pod.name) := pod]
  }

  lemma {:induction false} RefiledKeys(orphans: map<Key, Pod>, pods: seq<Pod>)
    ensures Refiled(orphans, pods).Keys == orphans.Keys + KeysOf(pods)
  {
    if pods == [] {
    } else {
      var init, pod := pods[..|pods| - 1], pods[|pods| - 1];
      RefiledKeys(orphans, init);
      assert pods == init + [pod];
      assert KeysOf(pods) == KeysOf(init) + {Key(pod.namespace, pod.name)};
    }
  }

  lemma {:induction false} RefiledOther(orphans: map<Key, Pod>, pods: seq<Pod>, o: Key)
    requires o !in KeysOf(pods) && o in orphans
    ensures o in Refiled(orphans, pods) && Refiled(orphans, pods)[o] == orphans[o]
  {
    if pods == [] {
    } else {
      var init, pod := pods[..|pods| - 1], pods[|pods| - 1];
      assert pods == init + [pod];
      assert KeysOf(pods) == KeysOf(init) + {Key(pod.namespace, pod.name)};
      RefiledOther(orphans, init, o);
    }
  }

  /** The orphans after the boost was offered those of its namespace. */
  function MapOrphans(server: Answers, selector: Selector, s: Snapshot, orphans: map<Key, Pod>,
                      order: seq<Pod>): map<Key, Pod>
  {
    Refiled(orphans - KeysOf(MapPods(server, selector, s, order)), MapFailed(server, selector, s, order))
  }

  /** The boost after it was given these pods, of which it upserts those it does not track. */
  function SyncState(server: Answers, s: Snapshot, listed: seq<Pod>): Snapshot
  {
    if listed == [] then s
    else
      var before, pod := SyncState(server, s, listed[..|listed| - 1]), listed[|listed| - 1];
      if pod.name in before.pods then before else AfterUpsert(server, before, pod)
  }

  // The outcomes below are stated pod by pod, so that a proof unfolds them only where it
  // speaks of a pod.

  /** `order` lists the orphans of the namespace, each once, and the pod is in it if it is one of them. */
  ghost predicate ListedAt(order: seq<Pod>, orphans: map<Key, Pod>, ns: string, p: Pod)
  {
    DistinctPods(order) && (p in order <==> Key(ns, p.name) in orphans && orphans[Key(ns, p.name)] == p)
  }

  ghost predicate OfferedAt(b: StartupCpuBoost, selector: Selector, s: Snapshot, orphans: map<Key, Pod>,
                            order: seq<Pod>, s': Snapshot, orphans': map<Key, Pod>, p: Pod)
  {
    && ListedAt(order, orphans, b.namespace, p)
    && s' == MapState(b.server, selector, s, order)
    && orphans' == MapOrphans(b.server, selector, s, orphans, order)
  }

  /** The boost was offered the orphans of its namespace, in that order. */
  ghost predicate Offered(b: StartupCpuBoost, selector: Selector, s: Snapshot, orphans: map<Key, Pod>,
                          order: seq<Pod>, s': Snapshot, orphans': map<Key, Pod>)
  {
    forall p {:trigger OfferedAt(b, selector, s, orphans, order, s', orphans', p)} ::
      OfferedAt(b, selector, s, orphans, order, s', orphans', p)
  }

  ghost predicate SyncedAt(server: Answers, s: Snapshot, listed: seq<Pod>, s': Snapshot, p: Pod)
  {
    && s' == SyncState(server, s, listed)
    && (p.name in s.pods ==> p.name in s'.pods && s'.pods[p.name] == s.pods[p.name])
  }

  /** The boost was given the listed pods; those it tracked before are as they were. */
  ghost predicate Synced(server: Answers, s: Snapshot, listed: seq<Pod>, s': Snapshot)
  {
    forall p {:trigger SyncedAt(server, s, listed, s', p)} :: SyncedAt(server, s, listed, s', p)
  }

  ghost predicate ProcessedAt(b: StartupCpuBoost, selector: Selector, s: Snapshot, orphans: map<Key, Pod>,
                              order: seq<Pod>, listed: Option<seq<Pod>>, s': Snapshot, orphans': map<Key, Pod>, p: Pod)
  {
    && ListedAt(order, orphans, b.namespace, p)
    && s' == SyncState(b.server, MapState(b.server, selector, s, order), listed.GetOr([]))
    && orphans' == MapOrphans(b.server, selector, s, orphans, order)
  }

  /** The boost was offered the orphans of its namespace, in that order, and then given the listed pods. */
  ghost predicate Processed(b: StartupCpuBoost, selector: Selector, s: Snapshot, orphans: map<Key, Pod>,
                            order: seq<Pod>, listed: Option<seq<Pod>>, s': Snapshot, orphans': map<Key, Pod>)
  {
    forall p {:trigger ProcessedAt(b, selector, s, orphans, order, listed, s', orphans', p)} ::
      ProcessedAt(b, selector, s, orphans, order, listed, s', orphans', p)
  }

  lemma OfferedAndSynced(b: StartupCpuBoost, selector: Selector, s: Snapshot, orphans: map<Key, Pod>, order: seq<Pod>,
                         mid: Snapshot, listed: Option<seq<Pod>>, s': Snapshot, orphans': map<Key, Pod>)
    requires Offered(b, selector, s, orphans, order, mid, orphans') && Synced(b.server, mid, listed.GetOr([]), s')
    ensures Processed(b, selector, s, orphans, order, listed, s', orphans')
  {
    forall p
      ensures ProcessedAt(b, selector, s, orphans, order, listed, s', orphans', p)
    {
      assert OfferedAt(b, selector, s, orphans, order, mid, orphans', p);
      assert SyncedAt(b.server, mid, listed.GetOr([]), s', p);
    }
  }

  /** Upserts one pod; `more` is the revert that was made, if any. */
  method Upsert(b: StartupCpuBoost, pod: Pod) returns (ok: bool, ghost more: seq<Revert>)
    modifies b`pods, b`activeContainerBoosts, b`totalContainerBoosts, b`reverts
    ensures ok == UpsertOk(b.server, old(Tracker.Seen(b)), pod)
    ensures Tracker.Seen(b) == AfterUpsert(b.server, old(Tracker.Seen(b)), pod)
    ensures more == (if b.ConditionMet(pod) then [Revert(pod, ok)] else []) && (AllOk(more) <==> ok)
    ensures b.reverts == old(b.reverts) + more
    ensures old(Truthful(b.server, b.reverts)) ==> Truthful(b.server, b.reverts)
    ensures !b.ConditionMet(pod) ==> ok && b.pods == old(b.pods)[pod.name := pod]
    ensures pod.name in b.pods <==> !(b.ConditionMet(pod) && ok)
    ensures forall n :: n != pod.name ==> (n in b.pods <==> n in old(b.pods))
    ensures forall n :: n != pod.name && n in b.pods ==> b.pods[n] == old(b.pods)[n]
  {
    ghost var before := b.reverts;
    ok := b.UpsertPod(pod);
    more := if b.ConditionMet(pod) then [Revert(pod, ok)] else [];
    AllOkOne(Revert(pod, ok));
    assert before + [] == before;
    if b.ConditionMet(pod) && Truthful(b.server, before) {
      TruthfulMore(b.server, before, Revert(pod, ok));
    }
  }

  lemma MapMore(server: Answers, selector: Selector, s: Snapshot, offered: seq<Pod>, pod: Pod)
    ensures var before := MapState(server, selector, s, offered);
            var matches, ok := Selectors.Matches(selector, pod.labels), UpsertOk(server, before, pod);
            && MapState(server, selector, s, offered + [pod]) ==
               (if matches then AfterUpsert(server, before, pod) else before)
            && MapPods(server, selector, s, offered + [pod]) ==
               MapPods(server, selector, s, offered) + (if matches && ok then [pod] else [])
            && MapFailed(server, selector, s, offered + [pod]) ==
               MapFailed(server, selector, s, offered) +
               (if matches && !ok then [LocalAfter(server, |before.reverts|, pod)] else [])
  {
    assert (offered + [pod])[..|offered|] == offered;
  }

  /** The copy is one of an offered pod whose revert failed. */
  ghost predicate FailedCopy(offered: seq<Pod>, made: seq<Revert>, failed: seq<Pod>, q: Pod)
  {
    q in failed ==> exists p :: p in offered && RevertModes.SamePod(p, q) && Revert(p, false) in made
  }

  ghost predicate FailedCopies(offered: seq<Pod>, made: seq<Revert>, failed: seq<Pod>)
  {
    forall q {:trigger FailedCopy(offered, made, failed, q)} :: FailedCopy(offered, made, failed, q)
  }

  lemma FailedCopiesMore(offered: seq<Pod>, made: seq<Revert>, failed: seq<Pod>, pod: Pod, more: seq<Revert>,
                         copies: seq<Pod>)
    requires FailedCopies(offered, made, failed)
    requires forall q :: q in copies ==> RevertModes.SamePod(pod, q) && Revert(pod, false) in more
    ensures FailedCopies(offered + [pod], made + more, failed + copies)
  {
    var offered', made', failed' := offered + [pod], made + more, failed + copies;
    forall q
      ensures FailedCopy(offered', made', failed', q)
    {
      assert FailedCopy(offered, made, failed, q);
      if q in failed {
        var p :| p in offered && RevertModes.SamePod(p, q) && Revert(p, false) in made;
        assert p in offered' && Revert(p, false) in made';
      } else if q in copies {
        assert pod in offered' && Revert(pod, false) in made';
      }
    }
  }

  /** The progress of offering pods to a boost. */
  ghost predicate Mapping(server: Answers, selector: Selector, s0: Snapshot, offered: seq<Pod>,
                          s: Snapshot, mapped: seq<Pod>, failed: seq<Pod>, made: seq<Revert>)
  {
    && s == MapState(server, selector, s0, offered) && s.condition == s0.condition
    && mapped == MapPods(server, selector, s0, offered)
    && failed == MapFailed(server, selector, s0, offered)
    && HandedOver(selector, s.condition, s.pods, offered, mapped, made)
    && FailedCopies(offered, made, failed)
  }

  lemma HandedUpsert(server: Answers, selector: Selector, offered: seq<Pod>, s: Snapshot,
                     mapped: seq<Pod>, made: seq<Revert>, pod: Pod)
    requires HandedOver(selector, s.condition, s.pods, offered, mapped, made)
    requires DistinctPods(offered + [pod]) && Selectors.Matches(selector, pod.labels)
    ensures var ok := UpsertOk(server, s, pod);
            HandedOver(selector, s.condition, AfterUpsert(server, s, pod).pods, offered + [pod],
                       if ok then mapped + [pod] else mapped,
                       made + (if Met(s.condition, pod) then [Revert(pod, ok)] else []))
  {
    HandedOverMatching(selector, s.condition, s.pods, AfterUpsert(server, s, pod).pods, offered, mapped, made, pod,
                       UpsertOk(server, s, pod));
  }

  lemma MappingMatching(server: Answers, selector: Selector, s0: Snapshot, offered: seq<Pod>,
                        s: Snapshot, mapped: seq<Pod>, failed: seq<Pod>, made: seq<Revert>, pod: Pod)
    requires Mapping(server, selector, s0, offered, s, mapped, failed, made)
    requires DistinctPods(offered + [pod]) && Selectors.Matches(selector, pod.labels)
    ensures var ok := UpsertOk(server, s, pod);
            Mapping(server, selector, s0, offered + [pod], AfterUpsert(server, s, pod),
                    if ok then mapped + [pod] else mapped,
                    if ok then failed else failed + [LocalAfter(server, |s.reverts|, pod)],
                    made + (if Met(s.condition, pod) then [Revert(pod, ok)] else []))
  {
    MapMore(server, selector, s0, offered, pod);
    assert mapped + [] == mapped && failed + [] == failed;
    var ok := UpsertOk(server, s, pod);
    HandedUpsert(server, selector, offered, s, mapped, made, pod);
    FailedCopiesMore(offered, made, failed, pod, if Met(s.condition, pod) then [Revert(pod, ok)] else [],
                     if ok then [] else [LocalAfter(server, |s.reverts|, pod)]);
  }

  lemma MappingOther(server: Answers, selector: Selector, s0: Snapshot, offered: seq<Pod>,
                     s: Snapshot, mapped: seq<Pod>, failed: seq<Pod>, made: seq<Revert>, pod: Pod)
    requires Mapping(server, selector, s0, offered, s, mapped, failed, made) && !Selectors.Matches(selector, pod.labels)
    ensures Mapping(server, selector, s0, offered + [pod], s, mapped, failed, made)
  {
    MapMore(server, selector, s0, offered, pod);
    assert mapped + [] == mapped && failed + [] == failed && made + [] == made;
    HandedOverOther(selector, s.condition, s.pods, offered, mapped, made, pod);
    FailedCopiesMore(offered, made, failed, pod, [], []);
  }

  /**
   Upserts a pod that was offered and matches. If that fails, the object that was offered
   has become the copy that `b` tracks, which is `copy`.
   */
  method UpsertOffered(b: StartupCpuBoost, pod: Pod) returns (ok: bool, copy: Pod, ghost more: seq<Revert>)
    modifies b`pods, b`activeContainerBoosts, b`totalContainerBoosts, b`reverts
    ensures old(Truthful(b.server, b.reverts)) ==> Truthful(b.server, b.reverts)
    ensures ok == UpsertOk(b.server, old(Tracker.Seen(b)), pod)
    ensures !ok ==> copy == LocalAfter(b.server, |old(b.reverts)|, pod)
    ensures Tracker.Seen(b) == AfterUpsert(b.server, old(Tracker.Seen(b)), pod)
    ensures more == if b.ConditionMet(pod) then [Revert(pod, ok)] else []
    ensures b.reverts == old(b.reverts) + more
  {
    ok, more := Upsert(b, pod);
    copy := if ok then pod else b.pods[pod.name];
  }

  /** Offers one more pod to `b`, which upserts it if it matches. */
  method Offer(b: StartupCpuBoost, ghost s0: Snapshot, ghost offered: seq<Pod>,
               mapped: seq<Pod>, failed: seq<Pod>, ghost made: seq<Revert>, pod: Pod)
      returns (mapped': seq<Pod>, failed': seq<Pod>, ghost more: seq<Revert>)
    requires Mapping(b.server, b.selector, s0, offered, Tracker.Seen(b), mapped, failed, made)
    requires DistinctPods(offered + [pod])
    modifies b`pods, b`activeContainerBoosts, b`totalContainerBoosts, b`reverts
    ensures old(Truthful(b.server, b.reverts)) ==> Truthful(b.server, b.reverts)
    ensures b.reverts == old(b.reverts) + more
    ensures Mapping(b.server, b.selector, s0, offered + [pod], Tracker.Seen(b), mapped', failed', made + more)
  {
    mapped', failed', more := mapped, failed, [];
    if b.Matches(pod) {
      MappingMatching(b.server, b.selector, s0, offered, Tracker.Seen(b), mapped, failed, made, pod);
      var ok, copy;
      ok, copy, more := UpsertOffered(b, pod);
      mapped', failed' := if ok then mapped + [pod] else mapped, if ok then failed else failed + [copy];
    } else {
      MappingOther(b.server, b.selector, s0, offered, Tracker.Seen(b), mapped, failed, made, pod);
      assert made + [] == made;
    }
  }

  /**
   Upserts those of the given pods that match `b`; gives back the ones without an error,
   what has become of the others, and the reverts that were made.
   */
  method TrackMatching(b: StartupCpuBoost, orphans: seq<Pod>)
      returns (mapped: seq<Pod>, failed: seq<Pod>, ghost made: seq<Revert>)
    requires DistinctPods(orphans)
    modifies b`pods, b`activeContainerBoosts, b`totalContainerBoosts, b`reverts
    ensures old(Truthful(b.server, b.reverts)) ==> Truthful(b.server, b.reverts)
    ensures b.reverts == old(b.reverts) + made
    ensures Mapping(b.server, b.selector, old(Tracker.Seen(b)), orphans, Tracker.Seen(b), mapped, failed, made)
  {
    mapped, failed, made := [], [], [];
    for i := 0 to |orphans|
      invariant old(Truthful(b.server, b.reverts)) ==> Truthful(b.server, b.reverts)
      invariant b.reverts == old(b.reverts) + made
      invariant Mapping(b.server, b.selector, old(Tracker.Seen(b)), orphans[..i], Tracker.Seen(b), mapped, failed, made)
    {
      assert orphans[..i + 1] == orphans[..i] + [orphans[i]];
      ghost var more;
      mapped, failed, more := Offer(b, old(Tracker.Seen(b)), orphans[..i], mapped, failed, made, orphans[i]);
      made := made + more;
    }
    assert orphans[..|orphans|] == orphans;
  }

  /** The orphans of a namespace, as the collection lists them. */
  lemma ListedOrphans(flat: map<Key, Pod>, ns: string, orphans: seq<Pod>, names: seq<string>)
    requires forall k :: k in flat ==> k == Key(flat[k].namespace, flat[k].name)
    requires |orphans| == |names| && NoDuplicates(names)
    requires forall name :: name in names <==> Key(ns, name) in flat
    requires forall i :: 0 <= i < |names| ==> Key(ns, names[i]) in flat && orphans[i] == flat[Key(ns, names[i])]
    ensures DistinctPods(orphans)
    ensures forall p :: p in orphans <==> Key(ns, p.name) in flat && flat[Key(ns, p.name)] == p
  {
    assert forall i :: 0 <= i < |names| ==> orphans[i].name == names[i] by {
      assert forall i :: 0 <= i < |names| ==> Key(ns, names[i]) in flat;
    }
    forall p: Pod | Key(ns, p.name) in flat && flat[Key(ns, p.name)] == p
      ensures p in orphans
    {
      assert p.name in names;
      var i :| 0 <= i < |names| && names[i] == p.name;
      assert orphans[i] == p;
    }
  }

  function KeysOf(pods: seq<Pod>): set<Key>
  {
    set p | p in pods :: Key(p.namespace, p.name)
  }

  /** One orphan: gone exactly if it matches and its revert did not fail, and then `b` has it. */
  ghost predicate LeftAt(before: map<Key, Pod>, after: map<Key, Pod>, ns: string, selector: Selector,
                         condition: Option<PodCondition>, tracked: map<string, Pod>, made: seq<Revert>, o: Key)
  {
    && (o in after <==>
          o in before &&
          !(o.namespace == ns && Selectors.Matches(selector, before[o].labels) && Revert(before[o], false) !in made))
    && (o in after && Revert(before[o], false) !in made ==> after[o] == before[o])
    && (o in before && o !in after ==>
          before[o].name in tracked || (Met(condition, before[o]) && Revert(before[o], true) in made))
  }

  /** The revert was one of a matching orphan whose condition had been met. */
  ghost predicate RevertOfOrphan(before: map<Key, Pod>, ns: string, selector: Selector,
                                 condition: Option<PodCondition>, r: Revert)
  {
    && Key(ns, r.pod.name) in before && before[Key(ns, r.pod.name)] == r.pod
    && Selectors.Matches(selector, r.pod.labels) && Met(condition, r.pod)
  }

  /** Exactly the matching orphans of the namespace whose revert did not fail are gone, and `b` has them. */
  ghost predicate OrphansLeft(before: map<Key, Pod>, after: map<Key, Pod>, ns: string, selector: Selector,
                              condition: Option<PodCondition>, tracked: map<string, Pod>, made: seq<Revert>)
  {
    && (forall o {:trigger LeftAt(before, after, ns, selector, condition, tracked, made, o)} ::
          LeftAt(before, after, ns, selector, condition, tracked, made, o))
    && (forall r {:trigger RevertOfOrphan(before, ns, selector, condition, r)} ::
          r in made ==> RevertOfOrphan(before, ns, selector, condition, r))
  }

  lemma MappedAreGone(before: map<Key, Pod>, after: map<Key, Pod>, ns: string, selector: Selector,
                      condition: Option<PodCondition>, tracked: map<string, Pod>,
                      orphans: seq<Pod>, mapped: seq<Pod>, failed: seq<Pod>, made: seq<Revert>)
    requires forall k :: k in before ==> k == Key(before[k].namespace, before[k].name)
    requires forall p :: p in orphans <==> Key(ns, p.name) in before && before[Key(ns, p.name)] == p
    requires HandedOver(selector, condition, tracked, orphans, mapped, made) && FailedCopies(orphans, made, failed)
    requires after == Refiled(before - KeysOf(mapped), failed)
    ensures OrphansLeft(before, after, ns, selector, condition, tracked, made)
  {
    forall o
      ensures LeftAt(before, after, ns, selector, condition, tracked, made, o)
    {
      MappedAt(before, after, ns, selector, condition, tracked, orphans, mapped, failed, made, o);
    }
    forall r | r in made
      ensures RevertOfOrphan(before, ns, selector, condition, r)
    {
      assert HandedRevert(selector, condition, orphans, made, r);
    }
  }

  lemma MappedAt(before: map<Key, Pod>, after: map<Key, Pod>, ns: string, selector: Selector,
                 condition: Option<PodCondition>, tracked: map<string, Pod>,
                 orphans: seq<Pod>, mapped: seq<Pod>, failed: seq<Pod>, made: seq<Revert>, o: Key)
    requires forall k :: k in before ==> k == Key(before[k].namespace, before[k].name)
    requires forall p :: p in orphans <==> Key(ns, p.name) in before && before[Key(ns, p.name)] == p
    requires HandedOver(selector, condition, tracked, orphans, mapped, made) && FailedCopies(orphans, made, failed)
    requires after == Refiled(before - KeysOf(mapped), failed)
    ensures LeftAt(before, after, ns, selector, condition, tracked, made, o)
  {
    RefiledKeys(before - KeysOf(mapped), failed);
    if o in KeysOf(failed) {
      var q :| q in failed && o == Key(q.namespace, q.name);
      assert FailedCopy(orphans, made, failed, q);
      var p :| p in orphans && RevertModes.SamePod(p, q) && Revert(p, false) in made;
      assert before[Key(ns, p.name)] == p;
    } else if o in before {
      if o in KeysOf(mapped) {
        var p :| p in mapped && o == Key(p.namespace, p.name);
        assert HandedPod(selector, condition, tracked, orphans, mapped, made, p);
        assert before[Key(ns, p.name)] == p;
      } else {
        RefiledOther(before - KeysOf(mapped), failed, o);
        if o.namespace == ns {
          assert before[o] in orphans;
          assert HandedPod(selector, condition, tracked, orphans, mapped, made, before[o]);
        }
      }
    }
  }

  /** The pod is tracked, or was reverted because its condition had been met. */
  ghost predicate RecoveredAt(condition: Option<PodCondition>, tracked: map<string, Pod>, made: seq<Revert>, p: Pod)
  {
    p.name in tracked || (Met(condition, p) && Revert(p, true) in made)
  }

  /** Each listed pod is recovered; `made` are the reverts, also the failed ones. */
  ghost predicate Recovered(condition: Option<PodCondition>, tracked: map<string, Pod>, listed: seq<Pod>,
                            made: seq<Revert>)
  {
    && (forall r :: r in made ==> r.pod in listed && Met(condition, r.pod))
    && (forall p {:trigger RecoveredAt(condition, tracked, made, p)} :: p in listed ==>
          RecoveredAt(condition, tracked, made, p))
  }

  lemma RecoveredMore(condition: Option<PodCondition>, tracked: map<string, Pod>, tracked': map<string, Pod>,
                      listed: seq<Pod>, made: seq<Revert>, more: seq<Revert>, pod: Pod)
    requires Recovered(condition, tracked, listed, made) && tracked.Keys <= tracked'.Keys
    requires RecoveredAt(condition, tracked', made + more, pod)
    requires forall r :: r in more ==> r.pod == pod && Met(condition, pod)
    ensures Recovered(condition, tracked', listed + [pod], made + more)
  {
    forall p | p in listed + [pod]
      ensures RecoveredAt(condition, tracked', made + more, p)
    {
      if p in listed {
        assert RecoveredAt(condition, tracked, made, p);
      }
    }
  }

  /** Tracks the pods of the list that are not tracked already. */
  method TrackListed(b: StartupCpuBoost, listed: seq<Pod>) returns (ghost made: seq<Revert>)
    modifies b`pods, b`activeContainerBoosts, b`totalContainerBoosts, b`reverts
    ensures old(Truthful(b.server, b.reverts)) ==> Truthful(b.server, b.reverts)
    ensures b.reverts == old(b.reverts) + made
    ensures Synced(b.server, old(Tracker.Seen(b)), listed, Tracker.Seen(b))
    ensures Recovered(b.podCondition, b.pods, listed, made)
  {
    made := [];
    for i := 0 to |listed|
      invariant old(Truthful(b.server, b.reverts)) ==> Truthful(b.server, b.reverts)
      invariant b.reverts == old(b.reverts) + made
      invariant Tracker.Seen(b) == SyncState(b.server, old(Tracker.Seen(b)), listed[..i])
      invariant Recovered(b.podCondition, b.pods, listed[..i], made)
      invariant forall n :: n in old(b.pods) ==> n in b.pods && b.pods[n] == old(b.pods)[n]
    {
      var pod := listed[i];
      assert listed[..i + 1] == listed[..i] + [pod];
      assert listed[..i + 1][..i] == listed[..i];
      ghost var before, more := b.pods, [];
      if pod.name !in b.pods {
        var ok;
        ok, more := Upsert(b, pod);
      }
      RecoveredMore(b.podCondition, before, b.pods, listed[..i], made, more, pod);
      made := made + more;
    }
    assert listed[..|listed|] == listed;
  }

  /** The index after a boost has got that duration; a boost stays in it when its duration is dropped. */
  function TimedAfter(timed: map<Key, StartupCpuBoost>, k: Key, b: StartupCpuBoost, duration: Option<int>):
      map<Key, StartupCpuBoost>
  {
    if duration.Some? then timed[k := b] else timed
  }

  class BoostManager {
    const timedBoosts: Collection<StartupCpuBoost>
    const regularBoosts: Collection<StartupCpuBoost>
    const orphanedPods: Collection<Pod>

    /** The boosts that have ever been registered. */
    ghost var boosts: set<StartupCpuBoost>

    ghost predicate Registered(k: Key, b: StartupCpuBoost)
      reads regularBoosts
    {
      k in regularBoosts.flat && regularBoosts.flat[k] == b
    }

    /** Every registered boost is known and filed under its own name. */
    ghost predicate BoostsFiled()
      reads this, regularBoosts
    {
      forall k :: k in regularBoosts.flat ==>
        regularBoosts.flat[k] in boosts && k == Key(regularBoosts.flat[k].namespace, regularBoosts.flat[k].name)
    }

    /** fixed duration => in the index => registered, and always the same object. */
    ghost predicate TimedIndexAgrees()
      reads this, timedBoosts, regularBoosts, boosts`fixedDuration
      requires BoostsFiled()
    {
      && (forall k :: k in timedBoosts.flat ==> Registered(k, timedBoosts.flat[k]))
      && (forall k :: k in regularBoosts.flat && regularBoosts.flat[k].fixedDuration.Some? ==> k in timedBoosts.flat)
    }

    ghost predicate OrphansFiled()
      reads orphanedPods
    {
      forall k :: k in orphanedPods.flat ==> k == Key(orphanedPods.flat[k].namespace, orphanedPods.flat[k].name)
    }

    /** No registered boost of the pod's namespace, other than `except`, matches the pod. */
    ghost predicate Unmatched(pod: Pod, except: Option<StartupCpuBoost>)
      reads this, regularBoosts, boosts`selector
      requires BoostsFiled()
    {
      forall k :: k in regularBoosts.flat && k.namespace == pod.namespace && Some(regularBoosts.flat[k]) != except ==>
        !regularBoosts.flat[k].Matches(pod)
    }

    ghost predicate NoOrphanMatches(except: Option<StartupCpuBoost>)
      reads this, orphanedPods, regularBoosts, boosts`selector
      requires BoostsFiled()
    {
      forall o {:trigger OrphanAt(o, except)} :: OrphanAt(o, except)
    }

    /** If that is an orphan, no registered boost other than `except` matches it. */
    ghost predicate OrphanAt(o: Key, except: Option<StartupCpuBoost>)
      reads this, orphanedPods, regularBoosts, boosts`selector
      requires BoostsFiled()
    {
      o in orphanedPods.flat ==> Unmatched(orphanedPods.flat[o], except)
    }

    /** Every revert of every boost so far has succeeded. */
    ghost predicate AllReverted()
      reads this, boosts`reverts
    {
      forall b :: b in boosts ==> AllOk(b.reverts)
    }

    /** The logs say what the API server answered. */
    ghost predicate AllTruthful()
      reads this, boosts`reverts
    {
      forall b :: b in boosts ==> Truthful(b.server, b.reverts)
    }

    /** The index agrees with the registered boosts, and everything is filed under its name. */
    ghost predicate Indexed()
      reads this, timedBoosts, regularBoosts, orphanedPods, boosts`fixedDuration
    {
      && timedBoosts != regularBoosts
      && timedBoosts.Valid() && regularBoosts.Valid() && orphanedPods.Valid()
      && BoostsFiled()
      && TimedIndexAgrees()
      && OrphansFiled()
    }

    ghost predicate Valid()
      reads this, timedBoosts, regularBoosts, orphanedPods, boosts`fixedDuration, boosts`selector, boosts`reverts
    {
      && Indexed()
      && (AllReverted() ==> NoOrphanMatches(None))
    }

    constructor ()
      ensures Valid() && fresh(timedBoosts) && fresh(regularBoosts) && fresh(orphanedPods)
      ensures regularBoosts.flat == map[] && timedBoosts.flat == map[] && orphanedPods.flat == map[] && boosts == {}
    {
      timedBoosts := new Collection();
      regularBoosts := new Collection();
      orphanedPods := new Collection();
      boosts := {};
    }

    /** Finds some boost of the pod's namespace that matches the pod, if there is one. */
    method GetMatchingBoost(pod: Pod) returns (r: Option<StartupCpuBoost>, ghost k: Key)
      requires regularBoosts.Valid() && BoostsFiled()
      ensures r.Some? ==> Registered(k, r.value) && k.namespace == pod.namespace && r.value.Matches(pod)
      ensures r.None? ==> Unmatched(pod, None)
    {
      var boosts, names := regularBoosts.List(pod.namespace);
      for i := 0 to |boosts|
        invariant forall j :: 0 <= j < i ==> !boosts[j].Matches(pod)
      {
        if boosts[i].Matches(pod) {
          return Some(boosts[i]), Key(pod.namespace, names[i]);
        }
      }
      forall k | k in regularBoosts.flat && k.namespace == pod.namespace
        ensures !regularBoosts.flat[k].Matches(pod)
      {
        assert k.name in names by {
          assert Key(pod.namespace, k.name) == k;
        }
        var j :| 0 <= j < |names| && names[j] == k.name;
        assert Key(pod.namespace, names[j]) == k;
      }
      return None, Key("", "");
    }

    /** Adding reverts to the log of one boost, seen from the whole. */
    lemma LogGrows(b: StartupCpuBoost, others: bool, before: seq<Revert>, made: seq<Revert>)
      requires b in boosts && b.reverts == before + made
      requires others <==> forall c :: c in boosts && c != b ==> AllOk(c.reverts)
      ensures AllReverted() <==> others && AllOk(before) && AllOk(made)
    {
      AllOkTogether(before, made);
    }

    lemma LogNow(b: StartupCpuBoost, others: bool)
      requires b in boosts
      requires others <==> forall c :: c in boosts && c != b ==> AllOk(c.reverts)
      ensures AllReverted() <==> others && AllOk(b.reverts)
    {
    }

    /** Every revert of the boosts other than `b` has succeeded. */
    ghost predicate OthersReverted(b: StartupCpuBoost)
      reads this, boosts`reverts
    {
      forall c :: c in boosts && c != b ==> AllOk(c.reverts)
    }

    method UntrackWith(ghost k: Key, b: StartupCpuBoost, pod: Pod)
      requires Registered(k, b) && Valid()
      modifies b`pods, b`activeContainerBoosts, b`totalContainerBoosts
      ensures Valid()
      ensures b.pods == old(b.pods) - {pod.name}
    {
      b.DeletePod(pod);
    }

    /** A worker reverts a pod with a boost that may have been deleted meanwhile. */
    method RevertWith(b: StartupCpuBoost, pod: Pod, shared: bool, ghost now: int) returns (ok: bool)
      requires b in boosts && Valid()
      modifies b`pods, b`activeContainerBoosts, b`totalContainerBoosts, b`reverts
      ensures Valid() && (AllReverted() <==> old(AllReverted()) && ok)
      ensures old(AllTruthful()) ==> AllTruthful()
      ensures ok == b.server.attempt(|old(b.reverts)|, pod).ok
      ensures b.reverts == old(b.reverts) + [Revert(pod, ok)]
      ensures Tracker.Seen(b) == AfterRevert(b.server, old(Tracker.Seen(b)), pod, shared)
      ensures ok ==> forall t :: Violates(regularBoosts.flat, t, now) ==>
                       old(Violates(regularBoosts.flat, t, now)) && !(Registered(t.boost, b) && t.pod == pod.name)
    {
      ghost var others := OthersReverted(b);
      LogNow(b, others);
      ok := b.RevertResources(pod, shared);
      AllOkOne(Revert(pod, ok));
      if old(AllTruthful()) {
        TruthfulMore(b.server, old(b.reverts), Revert(pod, ok));
      }
      LogGrows(b, others, old(b.reverts), [Revert(pod, ok)]);
    }

    method RemoveOrphan(name: string, namespace: string)
      requires Indexed()
      modifies orphanedPods
      ensures Indexed()
      ensures old(NoOrphanMatches(None)) ==> NoOrphanMatches(None)
      ensures orphanedPods.flat == old(orphanedPods.flat) - {Key(namespace, name)}
    {
      orphanedPods.Delete(name, namespace);
      if old(NoOrphanMatches(None)) {
        forall o
          ensures OrphanAt(o, None)
        {
          assert old(OrphanAt(o, None));
        }
      }
    }

    /** Removes an orphan from a manager that is in order. */
    method DropOrphan(name: string, namespace: string)
      requires Valid()
      modifies orphanedPods
      ensures Valid()
      ensures orphanedPods.flat == old(orphanedPods.flat) - {Key(namespace, name)}
    {
      RemoveOrphan(name, namespace);
    }

    method AddOrphan(pod: Pod)
      requires Valid() && Unmatched(pod, None)
      modifies orphanedPods
      ensures Valid()
      ensures orphanedPods.flat == old(orphanedPods.flat)[Key(pod.namespace, pod.name) := pod]
    {
      orphanedPods.Put(pod.name, pod.namespace, pod);
      if AllReverted() {
        forall o
          ensures OrphanAt(o, None)
        {
          assert old(OrphanAt(o, None));
        }
      }
    }

    /** Upserts a pod, with the effect on the logs as a whole. */
    method UpsertWith(b: StartupCpuBoost, pod: Pod) returns (ok: bool)
      requires b in boosts
      modifies b`pods, b`activeContainerBoosts, b`totalContainerBoosts, b`reverts
      ensures AllReverted() <==> old(AllReverted()) && ok
      ensures old(AllTruthful()) ==> AllTruthful()
      ensures ok == UpsertOk(b.server, old(Tracker.Seen(b)), pod)
      ensures b.reverts == old(b.reverts) + (if b.ConditionMet(pod) then [Revert(pod, ok)] else [])
      ensures Tracker.Seen(b) == AfterUpsert(b.server, old(Tracker.Seen(b)), pod)
    {
      ghost var others, more := OthersReverted(b), [];
      LogNow(b, others);
      ok, more := Upsert(b, pod);
      LogGrows(b, others, old(b.reverts), more);
    }

    /** Tracks the pod with a boost that matches it; without an error the pod is no orphan any more. */
    method UpsertMatched(ghost k: Key, b: StartupCpuBoost, pod: Pod) returns (ok: bool)
      requires Registered(k, b) && Valid()
      modifies orphanedPods, b`pods, b`activeContainerBoosts, b`totalContainerBoosts, b`reverts
      ensures Valid() && (AllReverted() <==> old(AllReverted()) && ok)
      ensures old(AllTruthful()) ==> AllTruthful()
      ensures ok == UpsertOk(b.server, old(Tracker.Seen(b)), pod)
      ensures b.reverts == old(b.reverts) + (if b.ConditionMet(pod) then [Revert(pod, ok)] else [])
      ensures Tracker.Seen(b) == AfterUpsert(b.server, old(Tracker.Seen(b)), pod)
      ensures orphanedPods.flat ==
              if ok then old(orphanedPods.flat) - {Key(pod.namespace, pod.name)} else old(orphanedPods.flat)
    {
      ok := UpsertWith(b, pod);
      assert Valid();
      if ok {
        DropOrphan(pod.name, pod.namespace);
      }
    }

    /** Tracks the pod with a matching boost, or keeps it as an orphan. */
    method UpsertPod(pod: Pod) returns (r: Option<StartupCpuBoost>, ok: bool)
      requires Valid()
      modifies orphanedPods, boosts`pods, boosts`activeContainerBoosts, boosts`totalContainerBoosts, boosts`reverts
      ensures Valid() && (AllReverted() <==> old(AllReverted()) && ok)
      ensures forall b :: b in boosts && Some(b) != r ==> unchanged(b)
      ensures r.None? ==> ok && Unmatched(pod, None)
      ensures r.Some? ==> Registered(Key(r.value.namespace, r.value.name), r.value) && r.value in boosts
      ensures r.Some? ==> r.value.Matches(pod) && r.value.namespace == pod.namespace
      ensures r.Some? ==>
                r.value.reverts == old(r.value.reverts) + (if r.value.ConditionMet(pod) then [Revert(pod, ok)] else [])
      ensures old(AllTruthful()) ==> AllTruthful()
      ensures r.Some? ==> ok == UpsertOk(r.value.server, old(Tracker.Seen(r.value)), pod)
      ensures r.Some? ==> Tracker.Seen(r.value) == AfterUpsert(r.value.server, old(Tracker.Seen(r.value)), pod)
      ensures orphanedPods.flat ==
              var k := Key(pod.namespace, pod.name);
              if r.None? then old(orphanedPods.flat)[k := pod]
              else if ok then old(orphanedPods.flat) - {k}
              else old(orphanedPods.flat)
    {
      ghost var k;
      r, k := GetMatchingBoost(pod);
      if r.Some? {
        ok := UpsertMatched(k, r.value, pod);
      } else {
        ok := true;
        AddOrphan(pod);
      }
    }

    method DeletePod(pod: Pod) returns (r: Option<StartupCpuBoost>)
      requires Valid()
      modifies orphanedPods, boosts`pods, boosts`activeContainerBoosts, boosts`totalContainerBoosts
      ensures Valid()
      ensures forall b :: b in boosts && Some(b) != r ==> unchanged(b)
      ensures r.Some? ==> Registered(Key(r.value.namespace, r.value.name), r.value) && r.value in boosts
      ensures r.Some? ==> r.value.Matches(pod) && r.value.namespace == pod.namespace
      ensures r.Some? ==> r.value.pods == old(r.value.pods) - {pod.name}
      ensures r.None? ==> Unmatched(pod, None)
      ensures orphanedPods.flat ==
              if r.Some? then old(orphanedPods.flat) else old(orphanedPods.flat) - {Key(pod.namespace, pod.name)}
    {
      ghost var k;
      r, k := GetMatchingBoost(pod);
      if r.Some? {
        UntrackWith(k, r.value, pod);
      } else {
        RemoveOrphan(pod.name, pod.namespace);
      }
    }

    method RemoveOrphans(pods: seq<Pod>)
      requires orphanedPods.Valid() && OrphansFiled()
      modifies orphanedPods
      ensures orphanedPods.Valid() && OrphansFiled()
      ensures orphanedPods.flat == old(orphanedPods.flat) - KeysOf(pods)
    {
      for i := 0 to |pods|
        invariant orphanedPods.Valid() && OrphansFiled()
        invariant orphanedPods.flat == old(orphanedPods.flat) - KeysOf(pods[..i])
      {
        assert pods[..i + 1] == pods[..i] + [pods[i]];
        assert KeysOf(pods[..i + 1]) == KeysOf(pods[..i]) + {Key(pods[i].namespace, pods[i].name)};
        orphanedPods.Delete(pods[i].name, pods[i].namespace);
      }
      assert pods[..|pods|] == pods;
    }

    /** The filed objects are the ones that were worked on, so they have changed with them. */
    method RefileOrphans(pods: seq<Pod>)
      requires orphanedPods.Valid() && OrphansFiled()
      modifies orphanedPods
      ensures orphanedPods.Valid() && OrphansFiled()
      ensures orphanedPods.flat == Refiled(old(orphanedPods.flat), pods)
    {
      for i := 0 to |pods|
        invariant orphanedPods.Valid() && OrphansFiled()
        invariant orphanedPods.flat == Refiled(old(orphanedPods.flat), pods[..i])
      {
        assert pods[..i + 1][..i] == pods[..i];
        orphanedPods.Put(pods[i].name, pods[i].namespace, pods[i]);
      }
      assert pods[..|pods|] == pods;
    }

    /** Hands every orphan that matches `b` over to `b`. */
    method MapOrphanedPods(ghost k: Key, b: StartupCpuBoost) returns (ghost made: seq<Revert>, ghost order: seq<Pod>)
      requires Registered(k, b) && Indexed() && (AllReverted() ==> NoOrphanMatches(Some(b)))
      modifies orphanedPods, b`pods, b`activeContainerBoosts, b`totalContainerBoosts, b`reverts
      ensures Valid() && (AllReverted() <==> old(AllReverted()) && AllOk(made))
      ensures old(AllTruthful()) ==> AllTruthful()
      ensures b.reverts == old(b.reverts) + made && AllMet(b.podCondition, made)
      ensures Offered(b, b.selector, old(Tracker.Seen(b)), old(orphanedPods.flat), order, Tracker.Seen(b),
                orphanedPods.flat)
      ensures OrphansLeft(old(orphanedPods.flat), orphanedPods.flat, b.namespace, b.selector, b.podCondition, b.pods,
                made)
    {
      ghost var before := orphanedPods.flat;
      made, order := DrainOrphans(b);
      assert Indexed();
      if AllReverted() {
        forall o | o in before
          ensures Unmatched(before[o], Some(b))
        {
          assert old(OrphanAt(o, Some(b)));
        }
        NoOrphanLeft(b, before, made);
      }
    }

    method DrainOrphans(b: StartupCpuBoost) returns (ghost made: seq<Revert>, ghost order: seq<Pod>)
      requires b in boosts && orphanedPods.Valid() && OrphansFiled()
      modifies orphanedPods, b`pods, b`activeContainerBoosts, b`totalContainerBoosts, b`reverts
      ensures orphanedPods.Valid() && OrphansFiled()
      ensures AllReverted() <==> old(AllReverted()) && AllOk(made)
      ensures old(AllTruthful()) ==> AllTruthful()
      ensures b.reverts == old(b.reverts) + made && AllMet(b.podCondition, made)
      ensures Offered(b, b.selector, old(Tracker.Seen(b)), old(orphanedPods.flat), order, Tracker.Seen(b),
                orphanedPods.flat)
      ensures OrphansLeft(old(orphanedPods.flat), orphanedPods.flat, b.namespace, b.selector, b.podCondition, b.pods,
                made)
    {
      var orphans, names := orphanedPods.List(b.namespace);
      ghost var before := orphanedPods.flat;
      ListedOrphans(before, b.namespace, orphans, names);
      var mapped, failed;
      order := orphans;
      mapped, failed, made := MapWith(b, orphans);
      forall r
        ensures MetAt(b.podCondition, made, r)
      {
        assert HandedRevert(b.selector, b.podCondition, orphans, made, r);
      }
      RemoveOrphans(mapped);
      RefileOrphans(failed);
      forall p
        ensures OfferedAt(b, b.selector, old(Tracker.Seen(b)), before, order, Tracker.Seen(b), orphanedPods.flat, p)
      {
      }
      MappedAreGone(before, orphanedPods.flat, b.namespace, b.selector, b.podCondition, b.pods,
                    orphans, mapped, failed, made);
    }

    lemma NoOrphanLeft(b: StartupCpuBoost, before: map<Key, Pod>, made: seq<Revert>)
      requires BoostsFiled() && OrphansFiled() && AllOk(made)
      requires forall o :: o in before ==> Unmatched(before[o], Some(b))
      requires OrphansLeft(before, orphanedPods.flat, b.namespace, b.selector, b.podCondition, b.pods, made)
      ensures NoOrphanMatches(None)
    {
      forall o
        ensures OrphanAt(o, None)
      {
        assert LeftAt(before, orphanedPods.flat, b.namespace, b.selector, b.podCondition, b.pods, made, o);
        if o in orphanedPods.flat && Revert(before[o], false) in made {
          AllOkHas(made, Revert(before[o], false));
        }
      }
    }

    /** Upserts the matching pods, with the effect on the logs as a whole. */
    method MapWith(b: StartupCpuBoost, orphans: seq<Pod>)
        returns (mapped: seq<Pod>, failed: seq<Pod>, ghost made: seq<Revert>)
      requires b in boosts && DistinctPods(orphans)
      modifies b`pods, b`activeContainerBoosts, b`totalContainerBoosts, b`reverts
      ensures AllReverted() <==> old(AllReverted()) && AllOk(made)
      ensures old(AllTruthful()) ==> AllTruthful()
      ensures b.reverts == old(b.reverts) + made
      ensures Mapping(b.server, b.selector, old(Tracker.Seen(b)), orphans, Tracker.Seen(b), mapped, failed, made)
    {
      ghost var others := OthersReverted(b);
      LogNow(b, others);
      mapped, failed, made := TrackMatching(b, orphans);
      LogGrows(b, others, old(b.reverts), made);
    }

    /** Tracks again the pods that carry the boost's label on the API server; nothing if listing them failed. */
    method SyncBoostPods(ghost k: Key, b: StartupCpuBoost, listed: Option<seq<Pod>>) returns (ghost made: seq<Revert>)
      requires Registered(k, b) && Valid()
      modifies b`pods, b`activeContainerBoosts, b`totalContainerBoosts, b`reverts
      ensures Valid() && (AllReverted() <==> old(AllReverted()) && AllOk(made))
      ensures old(AllTruthful()) ==> AllTruthful()
      ensures b.reverts == old(b.reverts) + made && AllMet(b.podCondition, made)
      ensures Synced(b.server, old(Tracker.Seen(b)), listed.GetOr([]), Tracker.Seen(b))
      ensures listed.Some? ==> Recovered(b.podCondition, b.pods, listed.value, made)
    {
      ghost var others := OthersReverted(b);
      LogNow(b, others);
      made := TrackListed(b, listed.GetOr([]));
      LogGrows(b, others, old(b.reverts), made);
    }

    /** The index agrees except that `b` may be missing from it. */
    ghost predicate IndexedExcept(b: StartupCpuBoost)
      reads this, timedBoosts, regularBoosts, orphanedPods, boosts`fixedDuration
    {
      && timedBoosts != regularBoosts
      && timedBoosts.Valid() && regularBoosts.Valid() && orphanedPods.Valid()
      && BoostsFiled()
      && (forall k :: k in timedBoosts.flat ==> Registered(k, timedBoosts.flat[k]))
      && (forall k ::
            k in regularBoosts.flat && regularBoosts.flat[k] != b && regularBoosts.flat[k].fixedDuration.Some? ==>
            k in timedBoosts.flat)
      && OrphansFiled()
    }

    /** Puts the boost into the index if it has a fixed duration. */
    method IndexBoost(ghost k: Key, b: StartupCpuBoost)
      requires Registered(k, b) && IndexedExcept(b)
      modifies timedBoosts
      ensures Indexed()
      ensures timedBoosts.flat == TimedAfter(old(timedBoosts.flat), k, b, b.fixedDuration)
    {
      if b.fixedDuration.Some? {
        timedBoosts.Put(b.name, b.namespace, b);
      }
    }

    method IndexAndMap(ghost k: Key, b: StartupCpuBoost) returns (ghost made: seq<Revert>, ghost order: seq<Pod>)
      requires Registered(k, b) && IndexedExcept(b) && (AllReverted() ==> NoOrphanMatches(Some(b)))
      modifies timedBoosts, orphanedPods, b`pods, b`activeContainerBoosts, b`totalContainerBoosts, b`reverts
      ensures Valid() && (AllReverted() <==> old(AllReverted()) && AllOk(made))
      ensures old(AllTruthful()) ==> AllTruthful()
      ensures b.reverts == old(b.reverts) + made && AllMet(b.podCondition, made)
      ensures Offered(b, b.selector, old(Tracker.Seen(b)), old(orphanedPods.flat), order, Tracker.Seen(b),
                orphanedPods.flat)
      ensures timedBoosts.flat == TimedAfter(old(timedBoosts.flat), k, b, b.fixedDuration)
    {
      IndexBoost(k, b);
      assert AllReverted() ==> NoOrphanMatches(Some(b));
      made, order := MapOrphanedPods(k, b);
    }

    /**
     What follows the registration or the update of a boost; `listed` is absent if
     listing the pods failed. `made` are the reverts that were made, `synced` those of
     them that were made for listed pods.
     */
    method PostProcessNewBoost(ghost k: Key, b: StartupCpuBoost, listed: Option<seq<Pod>>)
        returns (ghost made: seq<Revert>, ghost synced: seq<Revert>, ghost order: seq<Pod>)
      requires Registered(k, b) && IndexedExcept(b) && (AllReverted() ==> NoOrphanMatches(Some(b)))
      modifies timedBoosts, orphanedPods, b`pods, b`activeContainerBoosts, b`totalContainerBoosts, b`reverts
      ensures Valid() && (AllReverted() <==> old(AllReverted()) && AllOk(made))
      ensures old(AllTruthful()) ==> AllTruthful()
      ensures b.reverts == old(b.reverts) + made && AllMet(b.podCondition, made)
      ensures timedBoosts.flat == TimedAfter(old(timedBoosts.flat), k, b, b.fixedDuration)
      ensures Processed(b, b.selector, old(Tracker.Seen(b)), old(orphanedPods.flat), order, listed,
                        Tracker.Seen(b), orphanedPods.flat)
      ensures Within(synced, made)
      ensures listed.Some? ==> Recovered(b.podCondition, b.pods, listed.value, synced)
    {
      ghost var mapped;
      mapped, order := IndexAndMap(k, b);
      ghost var mid := Tracker.Seen(b);
      synced := SyncBoostPods(k, b, listed);
      OfferedAndSynced(b, b.selector, old(Tracker.Seen(b)), old(orphanedPods.flat), order, mid, listed, Tracker.Seen(b),
                       orphanedPods.flat);
      made := mapped + synced;
      MadeTogether(b.podCondition, mapped, synced);
    }

    /**
     Registers a new boost, unless its name is taken. Every pod that the API server
     then lists for it is tracked, or was reverted because its condition had been met,
     whatever happened to the orphans and whichever reverts failed.
     */
    method AddRegularCpuBoost(b: StartupCpuBoost, listed: Option<seq<Pod>>)
        returns (ok: bool, ghost made: seq<Revert>, ghost synced: seq<Revert>, ghost order: seq<Pod>)
      requires Valid() && b !in boosts
      modifies this`boosts, timedBoosts, regularBoosts, orphanedPods,
               b`pods, b`activeContainerBoosts, b`totalContainerBoosts, b`reverts
      ensures Valid()
      ensures ok <==> Key(b.namespace, b.name) !in old(regularBoosts.flat)
      ensures !ok ==>
                unchanged(this) && unchanged(timedBoosts) && unchanged(regularBoosts) &&
                unchanged(orphanedPods) && unchanged(b)
      ensures ok ==>
                regularBoosts.flat == old(regularBoosts.flat)[Key(b.namespace, b.name) := b] &&
                boosts == old(boosts) + {b}
      ensures ok ==> (AllReverted() <==> old(AllReverted()) && old(AllOk(b.reverts)) && AllOk(made))
      ensures ok ==> b.reverts == old(b.reverts) + made && AllMet(b.podCondition, made)
      ensures old(AllTruthful()) && old(Truthful(b.server, b.reverts)) ==> AllTruthful()
      ensures ok ==>
                timedBoosts.flat == TimedAfter(old(timedBoosts.flat), Key(b.namespace, b.name), b, b.fixedDuration)
      ensures ok ==> Processed(b, b.selector, old(Tracker.Seen(b)), old(orphanedPods.flat), order, listed,
                               Tracker.Seen(b), orphanedPods.flat)
      ensures ok && listed.Some? ==>
                Recovered(b.podCondition, b.pods, listed.value, synced) && Within(synced, made)
    {
      ok, made, synced, order := false, [], [], [];
      var existing := regularBoosts.Get(b.name, b.namespace);
      if existing.Some? {
        return;
      }
      ok := true;
      Register(b);
      made, synced, order := PostProcessNewBoost(Key(b.namespace, b.name), b, listed);
    }

    method Register(b: StartupCpuBoost)
      requires Valid() && b !in boosts && Key(b.namespace, b.name) !in regularBoosts.flat
      modifies this`boosts, regularBoosts
      ensures regularBoosts.flat == old(regularBoosts.flat)[Key(b.namespace, b.name) := b] &&
              boosts == old(boosts) + {b}
      ensures IndexedExcept(b)
      ensures AllReverted() <==> old(AllReverted()) && AllOk(b.reverts)
      ensures AllTruthful() <==> old(AllTruthful()) && Truthful(b.server, b.reverts)
      ensures AllReverted() ==> NoOrphanMatches(Some(b))
    {
      regularBoosts.Put(b.name, b.namespace, b);
      boosts := boosts + {b};
      if AllReverted() {
        forall o
          ensures OrphanAt(o, Some(b))
        {
          assert old(OrphanAt(o, None));
        }
      }
    }

    /** Takes over a changed API object; an object that is not registered is ignored. */
    method UpdateRegularCpuBoost(spec: Spec, listed: Option<seq<Pod>>)
        returns (ok: bool, ghost made: seq<Revert>, ghost synced: seq<Revert>, ghost order: seq<Pod>)
      requires Valid()
      modifies timedBoosts, orphanedPods
      modifies if Key(spec.namespace, spec.name) in regularBoosts.flat
               then {regularBoosts.flat[Key(spec.namespace, spec.name)]} else {}
      ensures Valid() && (AllReverted() <==> old(AllReverted()) && AllOk(made))
      ensures old(AllTruthful()) ==> AllTruthful()
      ensures ok <==>
                Key(spec.namespace, spec.name) !in regularBoosts.flat ||
                (Parses(spec.selector) && OnePolicyEach(spec.containerPolicies))
      ensures Key(spec.namespace, spec.name) !in regularBoosts.flat || !ok ==>
                made == [] && unchanged(timedBoosts) && unchanged(orphanedPods)
      ensures Key(spec.namespace, spec.name) in regularBoosts.flat ==>
                var b := regularBoosts.flat[Key(spec.namespace, spec.name)];
                && b.reverts == old(b.reverts) + made && AllMet(b.podCondition, made)
                && (!ok ==> unchanged(b))
                && (ok ==>
                      && b.selector == spec.selector && b.fixedDuration == spec.fixedDuration
                      && b.podCondition == spec.podCondition)
                && (ok ==> timedBoosts.flat ==
                           TimedAfter(old(timedBoosts.flat), Key(spec.namespace, spec.name), b, spec.fixedDuration))
                && (ok ==> Processed(b, spec.selector, old(Tracker.Seen(b)).(condition := spec.podCondition),
                                     old(orphanedPods.flat), order, listed, Tracker.Seen(b), orphanedPods.flat))
                && (ok && listed.Some? ==>
                      Recovered(b.podCondition, b.pods, listed.value, synced) && Within(synced, made))
    {
      made, synced, order := [], [], [];
      var found := regularBoosts.Get(spec.name, spec.namespace);
      if found.None? {
        return true, made, synced, order;
      }
      ok, made, synced, order := UpdateRegistered(Key(spec.namespace, spec.name), found.value, spec, listed);
    }

    method UpdateRegistered(ghost k: Key, b: StartupCpuBoost, spec: Spec, listed: Option<seq<Pod>>)
        returns (ok: bool, ghost made: seq<Revert>, ghost synced: seq<Revert>, ghost order: seq<Pod>)
      requires Valid() && Registered(k, b)
      modifies timedBoosts, orphanedPods, b
      ensures Valid() && (AllReverted() <==> old(AllReverted()) && AllOk(made))
      ensures old(AllTruthful()) ==> AllTruthful()
      ensures ok <==> Parses(spec.selector) && OnePolicyEach(spec.containerPolicies)
      ensures !ok ==> made == [] && unchanged(timedBoosts) && unchanged(orphanedPods) && unchanged(b)
      ensures b.reverts == old(b.reverts) + made && AllMet(b.podCondition, made)
      ensures ok ==>
                b.selector == spec.selector && b.fixedDuration == spec.fixedDuration &&
                b.podCondition == spec.podCondition
      ensures ok ==> timedBoosts.flat == TimedAfter(old(timedBoosts.flat), k, b, spec.fixedDuration)
      ensures ok ==> Processed(b, spec.selector, old(Tracker.Seen(b)).(condition := spec.podCondition),
                               old(orphanedPods.flat), order, listed, Tracker.Seen(b), orphanedPods.flat)
      ensures ok && listed.Some? ==>
                Recovered(b.podCondition, b.pods, listed.value, synced) && Within(synced, made)
    {
      made, synced, order := [], [], [];
      AllOkNone();
      ok := Reconfigure(k, b, spec);
      if ok {
        made, synced, order := PostProcessNewBoost(k, b, listed);
      }
    }

    method Reconfigure(ghost k: Key, b: StartupCpuBoost, spec: Spec) returns (ok: bool)
      requires Registered(k, b) && Valid()
      modifies b`selector, b`resourcePolicies, b`fixedDuration, b`podCondition
      ensures ok <==> Parses(spec.selector) && OnePolicyEach(spec.containerPolicies)
      ensures !ok ==> Valid() && unchanged(b)
      ensures IndexedExcept(b) && (AllReverted() ==> NoOrphanMatches(Some(b)))
      ensures ok ==>
                b.selector == spec.selector && b.fixedDuration == spec.fixedDuration &&
                b.podCondition == spec.podCondition
    {
      ok := b.UpdateFromSpec(spec);
      if AllReverted() {
        forall o
          ensures OrphanAt(o, Some(b))
        {
          assert old(OrphanAt(o, None));
        }
      }
    }

    method DeleteRegularCpuBoost(namespace: string, name: string)
      requires Valid()
      modifies timedBoosts, regularBoosts
      ensures Valid()
      ensures regularBoosts.flat == old(regularBoosts.flat) - {Key(namespace, name)}
      ensures timedBoosts.flat == old(timedBoosts.flat) - {Key(namespace, name)}
    {
      regularBoosts.Delete(name, namespace);
      timedBoosts.Delete(name, namespace);
      if AllReverted() {
        forall o
          ensures OrphanAt(o, None)
        {
          assert old(OrphanAt(o, None));
        }
      }
    }

    /** The expired pods of one boost, as tasks. */
    method TasksOf(b: StartupCpuBoost, now: int) returns (tasks: seq<RevertTask>, ghost names: seq<string>)
      ensures |tasks| == |names| && NoDuplicates(names)
      ensures forall n :: n in names <==> n in b.pods && b.Expired(b.pods[n], now)
      ensures forall i :: 0 <= i < |names| ==> names[i] in b.pods && tasks[i] == RevertTask(b, b.pods[names[i]])
      ensures forall i :: 0 <= i < |names| ==> tasks[i].pod.name == names[i]
    {
      var violated;
      violated, names := b.ValidateFixedPolicy(now);
      tasks := seq(|violated|, i requires 0 <= i < |violated| => RevertTask(b, violated[i]));
    }

    /** Each task is the tracked pod that its identity names. */
    ghost predicate TasksMatch(tasks: seq<RevertTask>, ids: seq<Pipeline.Task>, now: int)
      requires BoostsFiled()
      reads this, regularBoosts, boosts
    {
      && |tasks| == |ids|
      && forall i :: 0 <= i < |ids| ==>
        && Violates(regularBoosts.flat, ids[i], now)
        && tasks[i].boost == regularBoosts.flat[ids[i].boost]
        && tasks[i].pod == regularBoosts.flat[ids[i].boost].pods[ids[i].pod]
        && tasks[i].pod.name == ids[i].pod
    }

    /** What the policy checks report for the boosts of the configuration. */
    ghost predicate Reports(c: Pipeline.Config, now: int)
      requires BoostsFiled() && c.Valid()
      reads this, regularBoosts, boosts
    {
      && PipelineProgress.ReportsDistinct(c)
      && forall t :: t in Pipeline.AllTasks(c) <==> t.boost in c.boosts && Violates(regularBoosts.flat, t, now)
    }

    /** The names are those of the expired pods of the boost that is registered under the key. */
    ghost predicate ExpiredNames(k: Key, names: seq<string>, now: int)
      requires BoostsFiled()
      reads this, regularBoosts, boosts
    {
      && k in regularBoosts.flat && NoDuplicates(names)
      && forall n :: n in names <==> Violates(regularBoosts.flat, Pipeline.Task(k, n), now)
    }

    lemma ReportsMore(c: Pipeline.Config, k: Key, names: seq<string>, now: int)
      requires BoostsFiled() && c.Valid() && Reports(c, now) && k !in c.boosts && ExpiredNames(k, names, now)
      ensures Reports(PipelineProgress.WithBoost(c, k, names), now)
    {
      var c' := PipelineProgress.WithBoost(c, k, names);
      PipelineProgress.ReportsDistinctMore(c, k, names);
      PipelineProgress.AllTasksMore(c, k, names, 0);
      forall t
        ensures t in Pipeline.AllTasks(c') <==> t.boost in c'.boosts && Violates(regularBoosts.flat, t, now)
      {
        PipelineProgress.TasksOfHas(c', |c.boosts|, t);
        assert t.boost == k ==> t == Pipeline.Task(k, t.pod);
      }
    }

    lemma TasksMatchMore(c: Pipeline.Config, k: Key, names: seq<string>, tasks: seq<RevertTask>,
                         more: seq<RevertTask>, now: int)
      requires BoostsFiled() && c.Valid() && TasksMatch(tasks, Pipeline.AllTasks(c), now)
      requires ExpiredNames(k, names, now) && |more| == |names|
      requires var b := regularBoosts.flat[k];
               forall i :: 0 <= i < |names| ==>
                 && names[i] in b.pods && more[i] == RevertTask(b, b.pods[names[i]])
                 && more[i].pod.name == names[i]
      ensures TasksMatch(tasks + more, Pipeline.AllTasks(PipelineProgress.WithBoost(c, k, names)), now)
    {
      var ids := Pipeline.TasksOf(PipelineProgress.WithBoost(c, k, names), |c.boosts|);
      PipelineProgress.AllTasksMore(c, k, names, 0);
      forall i | 0 <= i < |ids|
        ensures ids[i] == Pipeline.Task(k, names[i]) && Violates(regularBoosts.flat, ids[i], now)
      {
        assert names[i] in names;
      }
    }

    /**
     The revert tasks of a tick. Only the index is scanned, and still the tasks are the
     expired pods of all registered boosts. The configuration `c` is the one from which
     the concurrent part of the tick starts; what it reports is distinct.
     */
    method CollectRevertTasks(now: int, ghost workers: nat) returns (tasks: seq<RevertTask>, ghost c: Pipeline.Config)
      requires Indexed() && workers >= 1
      ensures c.Valid() && c.workers == workers && Reports(c, now)
      ensures forall t :: t in Pipeline.AllTasks(c) <==> Violates(regularBoosts.flat, t, now)
      ensures TasksMatch(tasks, Pipeline.AllTasks(c), now)
    {
      var timed, keys := timedBoosts.ListAll();
      tasks, c := [], Pipeline.Config(workers, [], []);
      for n := 0 to |timed|
        invariant c.Valid() && c.workers == workers && c.boosts == keys[..n]
        invariant Reports(c, now) && TasksMatch(tasks, Pipeline.AllTasks(c), now)
      {
        var more, names := TasksOf(timed[n], now);
        assert Registered(keys[n], timed[n]) && keys[n] !in keys[..n];
        assert keys[..n + 1] == keys[..n] + [keys[n]];
        assert ExpiredNames(keys[n], names, now);
        ReportsMore(c, keys[n], names, now);
        TasksMatchMore(c, keys[n], names, tasks, more, now);
        tasks, c := tasks + more, PipelineProgress.WithBoost(c, keys[n], names);
      }
      assert keys[..|timed|] == keys;
    }

    /**
     When the concurrent part has returned, after any schedule, each expired pod of a
     registered boost has had exactly one revert attempt, and no other pod any.
     */
    lemma ExpiredPodsOnce(now: int, c: Pipeline.Config, handlers: seq<Pipeline.Handler>, run: seq<Pipeline.Action>,
                          t: Pipeline.Task)
      requires BoostsFiled() && c.Valid() && Reports(c, now)
      requires forall t :: t in Pipeline.AllTasks(c) <==> Violates(regularBoosts.flat, t, now)
      requires Pipeline.Fresh(handlers) && Pipeline.IsRun(c, Pipeline.Initial(c, handlers), run)
      requires Pipeline.After(c, Pipeline.Initial(c, handlers), run).ticker.Returned?
      ensures var attempts := Pipeline.After(c, Pipeline.Initial(c, handlers), run).attempts;
              PipelineProofs.Occurrences(PipelineProofs.Attempted(attempts), t) ==
              if Violates(regularBoosts.flat, t, now) then 1 else 0
    {
      PipelineProgress.OneAttemptEach(c, handlers, run, t);
    }

    /**
     One tick, with its reverts made one after the other. If none of them failed, no
     tracked pod of any registered boost is expired afterwards.
     */
    method Tick(now: int) returns (failed: bool)
      requires Valid()
      modifies boosts`pods, boosts`activeContainerBoosts, boosts`totalContainerBoosts, boosts`reverts
      ensures Valid() && (AllReverted() <==> old(AllReverted()) && !failed)
      ensures old(AllTruthful()) ==> AllTruthful()
      ensures !failed ==> forall t :: !Violates(regularBoosts.flat, t, now)
    {
      var tasks, c := CollectRevertTasks(now, 1);
      failed := RevertAll(tasks, Pipeline.AllTasks(c), now);
    }

    /** Makes the reverts of the tasks; `ids` says which pods they are. */
    method RevertAll(tasks: seq<RevertTask>, ghost ids: seq<Pipeline.Task>, ghost now: int) returns (failed: bool)
      requires Valid() && |tasks| == |ids|
      requires forall i :: 0 <= i < |tasks| ==>
                 Registered(ids[i].boost, tasks[i].boost) && tasks[i].pod.name == ids[i].pod
      requires forall t :: Violates(regularBoosts.flat, t, now) ==> t in ids
      modifies boosts`pods, boosts`activeContainerBoosts, boosts`totalContainerBoosts, boosts`reverts
      ensures Valid() && (AllReverted() <==> old(AllReverted()) && !failed)
      ensures old(AllTruthful()) ==> AllTruthful()
      ensures !failed ==> forall t :: !Violates(regularBoosts.flat, t, now)
    {
      failed := false;
      for i := 0 to |tasks|
        invariant Valid() && (AllReverted() <==> old(AllReverted()) && !failed)
        invariant old(AllTruthful()) ==> AllTruthful()
        invariant !failed ==> forall t :: Violates(regularBoosts.flat, t, now) ==> t in ids[i..]
      {
        assert Registered(ids[i].boost, tasks[i].boost) && ids[i..] == [ids[i]] + ids[i + 1..];
        var ok := RevertWith(tasks[i].boost, tasks[i].pod, true, now);
        failed := failed || !ok;
      }
    }
  }
}
