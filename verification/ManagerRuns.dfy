/**
 Runs of the boost manager: any sequence of events, at the granularity of its locks, as
 steps on views. And what a tick's checks and reverts come to when events happen between
 them.
 */
module ManagerRuns {
  import opened Wrappers
  import opened Selectors
  import opened Pods
  import opened NamespacedObjects
  import opened Tracker
  import opened Manager

  /**
   What can happen to a manager, at the granularity of its locks. `Reverting` is the
   work of a worker: it may come at any time after the check that reported the pod, with
   the copy of the pod that the check saw, and after its boost has been deleted.
   */
  datatype Event =
    | BoostAdded(spec: Spec, listed: Option<seq<Pod>>, server: Answers)
    | BoostUpdated(spec: Spec, listed: Option<seq<Pod>>)
    | BoostDeleted(namespace: string, name: string)
    | PodUpserted(pod: Pod)
    | PodDeleted(pod: Pod)
    | Reverting(boost: nat, pod: Pod, shared: bool)

  datatype BoostState = BoostState(selector: Selector, duration: Option<int>, tracked: Snapshot)

  ghost function StateOf(b: StartupCpuBoost): BoostState
    reads b
  {
    BoostState(b.selector, b.fixedDuration, Tracker.Seen(b))
  }

  /**
   What a run leaves between two events: the boosts that have ever been registered with
   their states, the registered ones, the index of timed ones, and the orphans.
   */
  datatype View = View(
    known: seq<StartupCpuBoost>,
    states: seq<BoostState>,
    registered: map<Key, StartupCpuBoost>,
    timed: map<Key, StartupCpuBoost>,
    orphans: map<Key, Pod>)

  ghost predicate ShownAt(known: seq<StartupCpuBoost>, states: seq<BoostState>, i: int)
    reads known
  {
    0 <= i < |known| && i < |states| ==> states[i] == StateOf(known[i])
  }

  ghost predicate AllShown(known: seq<StartupCpuBoost>, states: seq<BoostState>)
    reads known
  {
    |states| == |known| && forall i {:trigger ShownAt(known, states, i)} :: ShownAt(known, states, i)
  }

  /** The view is the one of this moment. */
  ghost predicate Shows(m: BoostManager, known: seq<StartupCpuBoost>, v: View)
    reads m, m.regularBoosts, m.timedBoosts, m.orphanedPods, known
  {
    && v.known == known && AllShown(known, v.states)
    && v.registered == m.regularBoosts.flat && v.timed == m.timedBoosts.flat && v.orphans == m.orphanedPods.flat
  }

  predicate DifferentAt(known: seq<StartupCpuBoost>, i: int, j: int)
  {
    0 <= i < |known| && 0 <= j < |known| && i != j ==> known[i] != known[j]
  }

  ghost predicate Different(known: seq<StartupCpuBoost>)
  {
    forall i, j {:trigger DifferentAt(known, i, j)} :: DifferentAt(known, i, j)
  }

  /** The boosts of a run: `known` lists those that the manager knows, each once. */
  ghost predicate Knows(m: BoostManager, known: seq<StartupCpuBoost>)
    reads m
  {
    Different(known) && m.boosts == set b | b in known
  }

  /** The manager is in order, and the view shows it. */
  ghost predicate InOrder(m: BoostManager, known: seq<StartupCpuBoost>, v: View)
    reads m, m.regularBoosts, m.timedBoosts, m.orphanedPods, m.boosts, known
  {
    && m.Valid() && m.AllTruthful()
    && Knows(m, known)
    && Shows(m, known, v)
  }

  predicate Acceptable(spec: Spec)
  {
    Parses(spec.selector) && OnePolicyEach(spec.containerPolicies)
  }

  /** The boost with that index is registered and matches the pod. */
  ghost predicate Takes(known: seq<StartupCpuBoost>, states: seq<BoostState>, registered: map<Key, StartupCpuBoost>,
                        i: int, pod: Pod)
    requires |states| == |known|
  {
    && 0 <= i < |known|
    && var b := known[i];
    && Key(b.namespace, b.name) in registered && registered[Key(b.namespace, b.name)] == b
    && b.namespace == pod.namespace && Selectors.Matches(states[i].selector, pod.labels)
  }

  ghost predicate Candidate(v: View, i: int, pod: Pod)
    requires |v.states| == |v.known|
  {
    Takes(v.known, v.states, v.registered, i, pod)
  }

  ghost predicate NoCandidate(v: View, pod: Pod)
    requires |v.states| == |v.known|
  {
    forall i {:trigger Takes(v.known, v.states, v.registered, i, pod)} ::
        !Takes(v.known, v.states, v.registered, i, pod)
  }

  /** The view in which the boost with that index has that state. */
  ghost function WithState(v: View, i: nat, state: BoostState): View
    requires i < |v.states|
  {
    v.(states := v.states[i := state])
  }

  /** A pod goes to some boost that matches it, or becomes an orphan. */
  ghost predicate UpsertStep(before: View, pod: Pod, after: View)
    requires |before.states| == |before.known|
  {
    var k := Key(pod.namespace, pod.name);
    || (after == before.(orphans := before.orphans[k := pod]) && NoCandidate(before, pod))
    || (exists i :: Candidate(before, i, pod) && UpsertedWith(before, i, pod, after))
  }

  ghost predicate UpsertedWith(before: View, i: int, pod: Pod, after: View)
    requires |before.states| == |before.known| && Candidate(before, i, pod)
  {
    var server, state, k := before.known[i].server, before.states[i], Key(pod.namespace, pod.name);
    after == WithState(before, i, state.(tracked := AfterUpsert(server, state.tracked, pod))).(
      orphans := if UpsertOk(server, state.tracked, pod) then before.orphans - {k} else before.orphans)
  }

  /** A pod leaves some boost that matches it, or the orphans. */
  ghost predicate DeleteStep(before: View, pod: Pod, after: View)
    requires |before.states| == |before.known|
  {
    var k := Key(pod.namespace, pod.name);
    || (after == before.(orphans := before.orphans - {k}) && NoCandidate(before, pod))
    || (exists i :: Candidate(before, i, pod) && DeletedWith(before, i, pod, after))
  }

  ghost predicate DeletedWith(before: View, i: int, pod: Pod, after: View)
    requires |before.states| == |before.known| && Candidate(before, i, pod)
  {
    var state := before.states[i];
    after == WithState(before, i, state.(tracked := state.tracked.(pods := state.tracked.pods - {pod.name})))
  }

  ghost predicate RevertStep(before: View, i: nat, pod: Pod, shared: bool, after: View)
    requires |before.states| == |before.known|
  {
    if i >= |before.known| then after == before
    else
      var state := before.states[i];
      after == WithState(before, i, state.(tracked := AfterRevert(before.known[i].server, state.tracked, pod, shared)))
  }

  /** A registered boost takes over its object; then it is offered the orphans and given the listed pods. */
  ghost predicate UpdateStep(before: View, spec: Spec, listed: Option<seq<Pod>>, after: View)
    requires |before.states| == |before.known|
  {
    var k := Key(spec.namespace, spec.name);
    if k in before.registered && Acceptable(spec)
    then exists i, order :: UpdatedTo(before, before.registered[k], spec, listed, i, order, after)
    else after == before
  }

  ghost predicate UpdatedTo(before: View, b: StartupCpuBoost, spec: Spec, listed: Option<seq<Pod>>,
                            i: int, order: seq<Pod>, after: View)
    requires |before.states| == |before.known|
  {
    && 0 <= i < |before.known| && before.known[i] == b && |after.states| == |before.states|
    && var state := after.states[i];
    && state.selector == spec.selector && state.duration == spec.fixedDuration
    && Processed(b, spec.selector, before.states[i].tracked.(condition := spec.podCondition), before.orphans,
                 order, listed, state.tracked, after.orphans)
    && after == WithState(before, i, state).(
         timed := TimedAfter(before.timed, Key(spec.namespace, spec.name), b, spec.fixedDuration),
         orphans := after.orphans)
  }

  /** A new boost is registered, offered the orphans and given the listed pods. */
  ghost predicate AddStep(before: View, spec: Spec, listed: Option<seq<Pod>>, server: Answers, after: View)
  {
    var k := Key(spec.namespace, spec.name);
    if k !in before.registered && Acceptable(spec)
    then exists order :: AddedTo(before, spec, listed, server, order, after)
    else after == before
  }

  ghost predicate AddedTo(before: View, spec: Spec, listed: Option<seq<Pod>>, server: Answers, order: seq<Pod>,
                          after: View)
  {
    && |after.known| == |before.known| + 1 && |after.states| == |before.states| + 1
    && var k, b, state := Key(spec.namespace, spec.name), after.known[|before.known|], after.states[|before.states|];
    && b !in before.known && b.namespace == spec.namespace && b.name == spec.name && b.server == server
    && state.selector == spec.selector && state.duration == spec.fixedDuration
    && Processed(b, spec.selector, Snapshot(map[], spec.podCondition, []), before.orphans, order, listed,
                 state.tracked, after.orphans)
    && after == View(before.known + [b], before.states + [state], before.registered[k := b],
                     TimedAfter(before.timed, k, b, spec.fixedDuration), after.orphans)
  }

  /** What an event does. */
  ghost predicate EventStep(before: View, e: Event, after: View)
  {
    && |before.states| == |before.known|
    && match e
       case BoostAdded(spec, listed, server) => AddStep(before, spec, listed, server, after)
       case BoostUpdated(spec, listed) => UpdateStep(before, spec, listed, after)
       case BoostDeleted(namespace, name) =>
         var k := Key(namespace, name);
         after == before.(registered := before.registered - {k}, timed := before.timed - {k})
       case PodUpserted(pod) => UpsertStep(before, pod, after)
       case PodDeleted(pod) => DeleteStep(before, pod, after)
       case Reverting(i, pod, shared) => RevertStep(before, i, pod, shared, after)
  }

  ghost predicate StepAt(events: seq<Event>, trace: seq<View>, i: int)
  {
    0 <= i < |events| && i + 1 < |trace| ==> EventStep(trace[i], events[i], trace[i + 1])
  }

  ghost predicate IsTrace(events: seq<Event>, trace: seq<View>)
  {
    |trace| == |events| + 1 && forall i {:trigger StepAt(events, trace, i)} :: StepAt(events, trace, i)
  }

  lemma TraceMore(events: seq<Event>, n: nat, trace: seq<View>, v: View)
    requires n < |events| && IsTrace(events[..n], trace) && EventStep(trace[n], events[n], v)
    ensures IsTrace(events[..n + 1], trace + [v])
  {
    var events', trace' := events[..n + 1], trace + [v];
    forall i
      ensures StepAt(events', trace', i)
    {
      assert StepAt(events[..n], trace, i);
    }
  }

  /** The server answers every attempt with success. */
  ghost predicate Reliable(server: Answers)
  {
    forall n, pod :: server.attempt(n, pod).ok
  }

  lemma ReliableMeansAllOk(server: Answers, reverts: seq<Revert>)
    requires Reliable(server) && Truthful(server, reverts)
    ensures AllOk(reverts)
  {
    forall i
      ensures OkAt(reverts, i)
    {
      if 0 <= i < |reverts| {
        assert TrueAt(server, reverts, i);
      }
    }
  }

  /** The server of the boost is the one of an event that added it. */
  ghost predicate ServedBy(b: StartupCpuBoost, events: seq<Event>)
  {
    exists j :: 0 <= j < |events| && events[j].BoostAdded? && b.server == events[j].server
  }

  /** Every boost that was not there at the beginning was added by an event. */
  ghost predicate Served(boosts: seq<StartupCpuBoost>, known: seq<StartupCpuBoost>, events: seq<Event>)
  {
    forall b {:trigger ServedBy(b, events)} :: b in known && b !in boosts ==> ServedBy(b, events)
  }

  lemma ServedMore(boosts: seq<StartupCpuBoost>, known: seq<StartupCpuBoost>, known': seq<StartupCpuBoost>,
                   events: seq<Event>, n: nat)
    requires n < |events| && Served(boosts, known, events[..n])
    requires forall b :: b in known' && b !in known ==> events[n].BoostAdded? && b.server == events[n].server
    ensures Served(boosts, known', events[..n + 1])
  {
    var events' := events[..n + 1];
    forall b | b in known' && b !in boosts
      ensures ServedBy(b, events')
    {
      if b in known {
        assert ServedBy(b, events[..n]);
        var j :| 0 <= j < n && events[..n][j].BoostAdded? && b.server == events[..n][j].server;
        assert events'[j] == events[j];
      } else {
        assert events'[n] == events[n];
      }
    }
  }

  /** All servers of a run answer every attempt with success. */
  ghost predicate AllReliable(boosts: seq<StartupCpuBoost>, events: seq<Event>)
  {
    && (forall b :: b in boosts ==> Reliable(b.server))
    && (forall i :: 0 <= i < |events| && events[i].BoostAdded? ==> Reliable(events[i].server))
  }

  // ---------------------------------------------------------------------------
  // The invariants of a view
  // ---------------------------------------------------------------------------

  ghost predicate NoOrphanIn(v: View)
    requires |v.states| == |v.known|
  {
    forall o, i {:trigger OrphanIn(v, o, i)} :: OrphanIn(v, o, i)
  }

  /** If that is an orphan, the boost with that index is not registered or does not match it. */
  ghost predicate OrphanIn(v: View, o: Key, i: int)
    requires |v.states| == |v.known|
  {
    o in v.orphans ==> !Candidate(v, i, v.orphans[o])
  }

  ghost predicate LogAt(v: View, i: int)
    requires |v.states| == |v.known|
  {
    0 <= i < |v.known| ==> Truthful(v.known[i].server, v.states[i].tracked.reverts)
  }

  ghost predicate AllOkIn(v: View)
  {
    forall i :: 0 <= i < |v.states| ==> AllOk(v.states[i].tracked.reverts)
  }

  /** fixed duration => in the index => registered, and always the same object. */
  ghost predicate IndexIn(v: View)
    requires |v.states| == |v.known|
  {
    && (forall k :: k in v.timed ==> k in v.registered && v.registered[k] == v.timed[k])
    && (forall i :: 0 <= i < |v.known| && v.states[i].duration.Some? ==>
          var k := Key(v.known[i].namespace, v.known[i].name);
          k in v.registered && v.registered[k] == v.known[i] ==> k in v.timed)
    && (forall k :: k in v.registered ==>
          v.registered[k] in v.known && k == Key(v.registered[k].namespace, v.registered[k].name))
  }

  /**
   The invariants: the index agrees with the registered boosts, the logs say what the
   servers answer, and no orphan matches a registered boost while all logged reverts have
   succeeded.
   */
  ghost predicate ViewInv(v: View)
  {
    && |v.states| == |v.known| && Different(v.known)
    && IndexIn(v)
    && (forall i {:trigger LogAt(v, i)} :: LogAt(v, i))
    && (AllOkIn(v) ==> NoOrphanIn(v))
  }

  lemma ShownInv(m: BoostManager, known: seq<StartupCpuBoost>, v: View)
    requires InOrder(m, known, v)
    ensures ViewInv(v)
  {
    ShownIndex(m, known, v);
    forall i
      ensures LogAt(v, i)
    {
      assert ShownAt(known, v.states, i);
    }
    if AllOkIn(v) {
      ShownOrphans(m, known, v);
    }
  }

  lemma ShownIndex(m: BoostManager, known: seq<StartupCpuBoost>, v: View)
    requires InOrder(m, known, v)
    ensures IndexIn(v)
  {
    forall i | 0 <= i < |known| && v.states[i].duration.Some?
      ensures var k := Key(known[i].namespace, known[i].name);
              k in v.registered && v.registered[k] == known[i] ==> k in v.timed
    {
      assert ShownAt(known, v.states, i);
    }
  }

  lemma ShownOrphans(m: BoostManager, known: seq<StartupCpuBoost>, v: View)
    requires InOrder(m, known, v) && AllOkIn(v)
    ensures NoOrphanIn(v)
  {
    forall b | b in m.boosts
      ensures AllOk(b.reverts)
    {
      var i :| 0 <= i < |known| && known[i] == b;
      assert ShownAt(known, v.states, i);
    }
    forall o, i
      ensures OrphanIn(v, o, i)
    {
      if o in v.orphans && 0 <= i < |known| {
        assert ShownAt(known, v.states, i) && m.OrphanAt(o, None);
      }
    }
  }

  // ---------------------------------------------------------------------------
  // Events
  // ---------------------------------------------------------------------------

  lemma KnownIndex(m: BoostManager, known: seq<StartupCpuBoost>, b: StartupCpuBoost) returns (i: nat)
    requires Knows(m, known) && b in m.boosts
    ensures i < |known| && known[i] == b
  {
    i :| 0 <= i < |known| && known[i] == b;
  }

  /**
   An upsert. `taken` is the index of the boost that takes the pod, if one does; `states`
   are the states of the boosts before, and `states'` those afterwards.
   */
  method UpsertKnown(m: BoostManager, known: seq<StartupCpuBoost>, pod: Pod, ghost states: seq<BoostState>)
      returns (ghost taken: Option<nat>, ghost states': seq<BoostState>)
    requires m.Valid() && m.AllTruthful() && Knows(m, known) && AllShown(known, states)
    modifies m.orphanedPods, m.boosts
    ensures m.Valid() && m.AllTruthful() && m.boosts == old(m.boosts) && AllShown(known, states')
    ensures var registered, orphans, k := m.regularBoosts.flat, old(m.orphanedPods.flat), Key(pod.namespace, pod.name);
            match taken
            case None =>
              && states' == states && m.orphanedPods.flat == orphans[k := pod]
              && forall i {:trigger Takes(known, states, registered, i, pod)} ::
                    !Takes(known, states, registered, i, pod)
            case Some(i) =>
              && Takes(known, states, registered, i, pod)
              && var server, state := known[i].server, states[i];
              && states' == states[i := state.(tracked := AfterUpsert(server, state.tracked, pod))]
              && m.orphanedPods.flat == if UpsertOk(server, state.tracked, pod) then orphans - {k} else orphans
  {
    var r, ok := m.UpsertPod(pod);
    taken, states' := None, states;
    ghost var registered := m.regularBoosts.flat;
    if r.Some? {
      ghost var i := KnownIndex(m, known, r.value);
      assert old(ShownAt(known, states, i));
      taken, states' := Some(i), states[i := StateOf(known[i])];
      forall j
        ensures ShownAt(known, states', j)
      {
        assert old(ShownAt(known, states, j)) && DifferentAt(known, i, j);
      }
    } else {
      forall j
        ensures ShownAt(known, states', j) && !Takes(known, states, registered, j, pod)
      {
        assert old(ShownAt(known, states, j));
      }
    }
  }

  method HandleUpsert(m: BoostManager, known: seq<StartupCpuBoost>, pod: Pod, ghost before: View)
      returns (ghost after: View)
    requires InOrder(m, known, before)
    modifies m.orphanedPods, m.boosts
    ensures InOrder(m, known, after) && m.boosts == old(m.boosts) && UpsertStep(before, pod, after)
  {
    ghost var taken, states := UpsertKnown(m, known, pod, before.states);
    after := before.(states := states, orphans := m.orphanedPods.flat);
    if taken.Some? {
      assert Candidate(before, taken.value, pod) && UpsertedWith(before, taken.value, pod, after);
    }
  }

  method DeleteKnown(m: BoostManager, known: seq<StartupCpuBoost>, pod: Pod, ghost states: seq<BoostState>)
      returns (ghost taken: Option<nat>, ghost states': seq<BoostState>)
    requires m.Valid() && m.AllTruthful() && Knows(m, known) && AllShown(known, states)
    modifies m.orphanedPods, m.boosts
    ensures m.Valid() && m.AllTruthful() && m.boosts == old(m.boosts) && AllShown(known, states')
    ensures var registered, orphans, k := m.regularBoosts.flat, old(m.orphanedPods.flat), Key(pod.namespace, pod.name);
            match taken
            case None =>
              && states' == states && m.orphanedPods.flat == orphans - {k}
              && forall i {:trigger Takes(known, states, registered, i, pod)} ::
                    !Takes(known, states, registered, i, pod)
            case Some(i) =>
              && Takes(known, states, registered, i, pod)
              && var state := states[i];
              && states' == states[i := state.(tracked := state.tracked.(pods := state.tracked.pods - {pod.name}))]
              && m.orphanedPods.flat == orphans
  {
    var r := m.DeletePod(pod);
    taken, states' := None, states;
    ghost var registered := m.regularBoosts.flat;
    if r.Some? {
      ghost var i := KnownIndex(m, known, r.value);
      assert old(ShownAt(known, states, i));
      taken, states' := Some(i), states[i := StateOf(known[i])];
      forall j
        ensures ShownAt(known, states', j)
      {
        assert old(ShownAt(known, states, j)) && DifferentAt(known, i, j);
      }
    } else {
      forall j
        ensures ShownAt(known, states', j) && !Takes(known, states, registered, j, pod)
      {
        assert old(ShownAt(known, states, j));
      }
    }
  }

  method HandleDelete(m: BoostManager, known: seq<StartupCpuBoost>, pod: Pod, ghost before: View)
      returns (ghost after: View)
    requires InOrder(m, known, before)
    modifies m.orphanedPods, m.boosts
    ensures InOrder(m, known, after) && m.boosts == old(m.boosts) && DeleteStep(before, pod, after)
  {
    ghost var taken, states := DeleteKnown(m, known, pod, before.states);
    after := before.(states := states, orphans := m.orphanedPods.flat);
    if taken.Some? {
      assert Candidate(before, taken.value, pod) && DeletedWith(before, taken.value, pod, after);
    }
  }

  method RevertKnown(m: BoostManager, known: seq<StartupCpuBoost>, i: nat, pod: Pod, shared: bool,
                     ghost states: seq<BoostState>)
      returns (ghost states': seq<BoostState>)
    requires m.Valid() && m.AllTruthful() && Knows(m, known) && AllShown(known, states) && i < |known|
    modifies m.boosts
    ensures m.Valid() && m.AllTruthful() && m.boosts == old(m.boosts) && AllShown(known, states')
    ensures var state := states[i];
            states' == states[i := state.(tracked := AfterRevert(known[i].server, state.tracked, pod, shared))]
  {
    var _ := m.RevertWith(known[i], pod, shared, 0);
    assert old(ShownAt(known, states, i));
    states' := states[i := StateOf(known[i])];
    forall j
      ensures ShownAt(known, states', j)
    {
      assert old(ShownAt(known, states, j)) && DifferentAt(known, i, j);
    }
  }

  method HandleRevert(m: BoostManager, known: seq<StartupCpuBoost>, i: nat, pod: Pod, shared: bool, ghost before: View)
      returns (ghost after: View)
    requires InOrder(m, known, before)
    modifies m.boosts
    ensures InOrder(m, known, after) && m.boosts == old(m.boosts) && RevertStep(before, i, pod, shared, after)
  {
    after := before;
    if i < |known| {
      ghost var states := RevertKnown(m, known, i, pod, shared, before.states);
      after := before.(states := states);
    }
  }

  /** An update; `order` is the order in which the boost was offered the orphans. */
  method UpdateKnown(m: BoostManager, known: seq<StartupCpuBoost>, spec: Spec, listed: Option<seq<Pod>>,
                     ghost states: seq<BoostState>)
      returns (ghost taken: Option<nat>, ghost order: seq<Pod>, ghost states': seq<BoostState>)
    requires m.Valid() && m.AllTruthful() && Knows(m, known) && AllShown(known, states)
    modifies m.timedBoosts, m.orphanedPods, m.boosts
    ensures m.Valid() && m.AllTruthful() && m.boosts == old(m.boosts) && AllShown(known, states')
    ensures var k := Key(spec.namespace, spec.name);
            match taken
            case None =>
              && (k !in m.regularBoosts.flat || !Acceptable(spec))
              && states' == states && unchanged(m.timedBoosts) && unchanged(m.orphanedPods)
            case Some(i) =>
              && k in m.regularBoosts.flat && Acceptable(spec)
              && i < |known| && known[i] == m.regularBoosts.flat[k]
              && |states'| == |states| && states' == states[i := states'[i]]
              && states'[i].selector == spec.selector && states'[i].duration == spec.fixedDuration
              && m.timedBoosts.flat == TimedAfter(old(m.timedBoosts.flat), k, known[i], spec.fixedDuration)
              && Processed(known[i], spec.selector, states[i].tracked.(condition := spec.podCondition),
                           old(m.orphanedPods.flat), order, listed, states'[i].tracked, m.orphanedPods.flat)
  {
    ghost var k := Key(spec.namespace, spec.name);
    var ok;
    ghost var made, synced;
    ok, made, synced, order := m.UpdateRegularCpuBoost(spec, listed);
    taken, states' := None, states;
    if k in m.regularBoosts.flat && Acceptable(spec) {
      ghost var i := KnownIndex(m, known, m.regularBoosts.flat[k]);
      assert old(ShownAt(known, states, i));
      taken, states' := Some(i), states[i := StateOf(known[i])];
      forall j
        ensures ShownAt(known, states', j)
      {
        assert old(ShownAt(known, states, j)) && DifferentAt(known, i, j);
      }
    } else {
      forall j
        ensures ShownAt(known, states', j)
      {
        assert old(ShownAt(known, states, j));
      }
    }
  }

  method HandleUpdate(m: BoostManager, known: seq<StartupCpuBoost>, spec: Spec, listed: Option<seq<Pod>>,
                      ghost before: View)
      returns (ghost after: View)
    requires InOrder(m, known, before)
    modifies m.timedBoosts, m.orphanedPods, m.boosts
    ensures InOrder(m, known, after) && m.boosts == old(m.boosts) && UpdateStep(before, spec, listed, after)
  {
    ghost var taken, order, states := UpdateKnown(m, known, spec, listed, before.states);
    after := before.(states := states, timed := m.timedBoosts.flat, orphans := m.orphanedPods.flat);
    if taken.Some? {
      assert UpdatedTo(before, known[taken.value], spec, listed, taken.value, order, after);
    }
  }

  lemma DifferentMore(known: seq<StartupCpuBoost>, b: StartupCpuBoost)
    requires Different(known) && b !in known
    ensures Different(known + [b])
  {
    forall i, j
      ensures DifferentAt(known + [b], i, j)
    {
      assert DifferentAt(known, i, j);
    }
  }

  /** Registers a boost that was created from an API object. */
  method AddKnown(m: BoostManager, known: seq<StartupCpuBoost>, b: StartupCpuBoost, spec: Spec,
                  listed: Option<seq<Pod>>,
                  ghost states: seq<BoostState>)
      returns (ok: bool, ghost order: seq<Pod>)
    requires m.Valid() && m.AllTruthful() && Knows(m, known) && AllShown(known, states)
    requires b !in m.boosts && b.name == spec.name && b.namespace == spec.namespace
    requires StateOf(b) == BoostState(spec.selector, spec.fixedDuration, Snapshot(map[], spec.podCondition, []))
    modifies m, m.timedBoosts, m.regularBoosts, m.orphanedPods, b
    ensures m.Valid() && m.AllTruthful() && AllShown(known, states)
    ensures ok <==> Key(spec.namespace, spec.name) !in old(m.regularBoosts.flat)
    ensures !ok ==> unchanged(m) && unchanged(m.timedBoosts) && unchanged(m.regularBoosts) && unchanged(m.orphanedPods)
    ensures ok ==>
              var k := Key(spec.namespace, spec.name);
              && m.boosts == old(m.boosts) + {b}
              && m.regularBoosts.flat == old(m.regularBoosts.flat)[k := b]
              && m.timedBoosts.flat == TimedAfter(old(m.timedBoosts.flat), k, b, spec.fixedDuration)
              && b.selector == spec.selector && b.fixedDuration == spec.fixedDuration
              && Processed(b, spec.selector, Snapshot(map[], spec.podCondition, []), old(m.orphanedPods.flat),
                           order, listed, Tracker.Seen(b), m.orphanedPods.flat)
  {
    ghost var made, synced;
    ok, made, synced, order := m.AddRegularCpuBoost(b, listed);
    forall j
      ensures ShownAt(known, states, j)
    {
      assert old(ShownAt(known, states, j));
    }
  }

  /** The view after a boost was added. */
  lemma AddedView(m: BoostManager, known: seq<StartupCpuBoost>, b: StartupCpuBoost, before: View) returns (after: View)
    requires m.Valid() && m.AllTruthful() && before.known == known && AllShown(known, before.states)
    requires Different(known) && b !in known && m.boosts == (set b' | b' in known) + {b}
    ensures InOrder(m, known + [b], after)
    ensures after == View(known + [b], before.states + [StateOf(b)], m.regularBoosts.flat, m.timedBoosts.flat,
                          m.orphanedPods.flat)
  {
    after := View(known + [b], before.states + [StateOf(b)], m.regularBoosts.flat, m.timedBoosts.flat,
        m.orphanedPods.flat);
    DifferentMore(known, b);
    forall i
      ensures ShownAt(known + [b], after.states, i)
    {
      assert ShownAt(known, before.states, i);
    }
  }

  /** Creates a boost from an API object and registers it. */
  method HandleAdd(m: BoostManager, known: seq<StartupCpuBoost>, spec: Spec, listed: Option<seq<Pod>>, server: Answers,
                   ghost before: View)
      returns (known': seq<StartupCpuBoost>, ghost after: View)
    requires InOrder(m, known, before)
    modifies m, m.timedBoosts, m.regularBoosts, m.orphanedPods
    ensures InOrder(m, known', after) && known <= known' && fresh(m.boosts - old(m.boosts))
    ensures AddStep(before, spec, listed, server, after)
    ensures forall b :: b in known' && b !in known ==> b.server == server
  {
    known', after := known, before;
    var b := NewStartupCpuBoost(spec, server);
    if b.Some? {
      var ok, order := AddKnown(m, known, b.value, spec, listed, before.states);
      if ok {
        known' := known + [b.value];
        after := AddedView(m, known, b.value, before);
        assert AddedTo(before, spec, listed, server, order, after);
      }
    }
  }

  /** A run begins with an empty manager. */
  method NewManager() returns (m: BoostManager, ghost first: View)
    ensures fresh(m) && InOrder(m, [], first) && first == View([], [], map[], map[], map[])
  {
    m := new BoostManager();
    first := View([], [], map[], map[], map[]);
  }

  /** One event. */
  method HandleEvent(m: BoostManager, known: seq<StartupCpuBoost>, e: Event, ghost before: View)
      returns (known': seq<StartupCpuBoost>, ghost after: View)
    requires InOrder(m, known, before)
    modifies m, m.timedBoosts, m.regularBoosts, m.orphanedPods, m.boosts
    ensures InOrder(m, known', after) && known <= known' && fresh(m.boosts - old(m.boosts))
    ensures EventStep(before, e, after)
    ensures forall b :: b in known' && b !in known ==> e.BoostAdded? && b.server == e.server
  {
    known' := known;
    match e
    case BoostAdded(spec, listed, server) =>
      known', after := HandleAdd(m, known, spec, listed, server, before);
    case BoostUpdated(spec, listed) =>
      after := HandleUpdate(m, known, spec, listed, before);
    case BoostDeleted(namespace, name) =>
      after := HandleRemoval(m, known, namespace, name, before);
    case PodUpserted(pod) =>
      after := HandleUpsert(m, known, pod, before);
    case PodDeleted(pod) =>
      after := HandleDelete(m, known, pod, before);
    case Reverting(i, pod, shared) =>
      after := HandleRevert(m, known, i, pod, shared, before);
  }

  method HandleRemoval(m: BoostManager, known: seq<StartupCpuBoost>, namespace: string, name: string,
                       ghost before: View)
      returns (ghost after: View)
    requires InOrder(m, known, before)
    modifies m.timedBoosts, m.regularBoosts
    ensures InOrder(m, known, after) && EventStep(before, BoostDeleted(namespace, name), after)
  {
    m.DeleteRegularCpuBoost(namespace, name);
    after := before.(registered := m.regularBoosts.flat, timed := m.timedBoosts.flat);
    forall i
      ensures ShownAt(known, after.states, i)
    {
      assert old(ShownAt(known, before.states, i));
    }
  }

  /** The view satisfies the invariants, and shows no boost that was not known in the end. */
  ghost predicate InvAt(trace: seq<View>, known: seq<StartupCpuBoost>, i: int)
  {
    0 <= i < |trace| ==> ViewInv(trace[i]) && trace[i].known <= known
  }

  ghost predicate AllInv(trace: seq<View>, known: seq<StartupCpuBoost>)
  {
    forall i {:trigger InvAt(trace, known, i)} :: InvAt(trace, known, i)
  }

  lemma InvMore(trace: seq<View>, known: seq<StartupCpuBoost>, known': seq<StartupCpuBoost>, v: View)
    requires AllInv(trace, known) && ViewInv(v) && known <= known' && v.known == known'
    ensures AllInv(trace + [v], known')
  {
    var trace' := trace + [v];
    forall i
      ensures InvAt(trace', known', i)
    {
      assert InvAt(trace, known, i);
    }
  }

  /** With reliable servers every revert succeeds, so no orphan matches. */
  lemma ReliableView(v: View, boosts: seq<StartupCpuBoost>, events: seq<Event>)
    requires ViewInv(v) && Served(boosts, v.known, events) && AllReliable(boosts, events)
    ensures NoOrphanIn(v)
  {
    forall i | 0 <= i < |v.states|
      ensures AllOk(v.states[i].tracked.reverts)
    {
      var b := v.known[i];
      if b !in boosts {
        assert ServedBy(b, events);
      }
      assert LogAt(v, i);
      ReliableMeansAllOk(b.server, v.states[i].tracked.reverts);
    }
  }

  ghost predicate NoOrphanAt(trace: seq<View>, i: int)
  {
    0 <= i < |trace| ==> |trace[i].states| == |trace[i].known| && NoOrphanIn(trace[i])
  }

  lemma ReliableTrace(trace: seq<View>, known: seq<StartupCpuBoost>, boosts: seq<StartupCpuBoost>, events: seq<Event>)
    requires AllInv(trace, known) && Served(boosts, known, events) && AllReliable(boosts, events)
    ensures forall i {:trigger NoOrphanAt(trace, i)} :: NoOrphanAt(trace, i)
  {
    forall i
      ensures NoOrphanAt(trace, i)
    {
      if 0 <= i < |trace| {
        assert InvAt(trace, known, i);
        forall b | b in trace[i].known && b !in boosts
          ensures ServedBy(b, events)
        {
          assert b in known;
        }
        ReliableView(trace[i], boosts, events);
      }
    }
  }

  /**
   Any sequence of events, whatever the API server answers, is a trace of steps on views,
   and every view satisfies the invariants. With servers that answer with success no
   orphan ever matches a registered boost.
   */
  method RunEvents(m: BoostManager, events: seq<Event>, boosts: seq<StartupCpuBoost>, ghost first: View)
      returns (known: seq<StartupCpuBoost>, ghost trace: seq<View>)
    requires InOrder(m, boosts, first)
    modifies m, m.timedBoosts, m.regularBoosts, m.orphanedPods, m.boosts
    ensures IsTrace(events, trace) && trace[0] == first && InOrder(m, known, trace[|events|])
    ensures AllInv(trace, known)
    ensures AllReliable(boosts, events) ==> forall i {:trigger NoOrphanAt(trace, i)} :: NoOrphanAt(trace, i)
  {
    known, trace := boosts, [first];
    ShownInv(m, boosts, first);
    for i := 0 to |events|
      invariant IsTrace(events[..i], trace) && trace[0] == first && InOrder(m, known, trace[i])
      invariant fresh(m.boosts - old(m.boosts))
      invariant AllInv(trace, known) && Served(boosts, known, events[..i])
    {
      ghost var before := known;
      ghost var v;
      known, v := HandleEvent(m, known, events[i], trace[i]);
      ServedMore(boosts, before, known, events, i);
      TraceMore(events, i, trace, v);
      ShownInv(m, known, v);
      InvMore(trace, before, known, v);
      trace := trace + [v];
    }
    assert events[..|events|] == events;
    if AllReliable(boosts, events) {
      ReliableTrace(trace, known, boosts, events);
    }
  }
}
