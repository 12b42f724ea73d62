/**
 A tick among events. The checks of a tick read the boosts one after the other, and
 events change them in between. Here every step of the concurrent part of a tick happens
 at some place of a run of the manager, and what the steps read is what the run's view at
 that place shows.
 */
module ManagerTicks {
  import opened Wrappers
  import opened Pods
  import opened NamespacedObjects
  import opened Tracker
  import Manager
  import opened ManagerRuns
  import opened Pipeline
  import opened PipelineProofs
  import opened PipelineProgress

  /** In that view the boost tracks a pod of that name whose fixed duration has expired. */
  ghost predicate ExpiredIn(v: View, b: StartupCpuBoost, pod: string, now: int)
  {
    exists i ::
      && 0 <= i < |v.known| && i < |v.states| && v.known[i] == b
      && pod in v.states[i].tracked.pods
      && Overdue(v.states[i].duration, v.states[i].tracked.pods[pod], now)
  }

  /** Step `n` is the one with which the tick reads the index. */
  ghost predicate Lists(c: Config, start: State, run: seq<Action>, n: int)
    requires c.Valid() && IsRun(c, start, run)
  {
    0 <= n < |run| && Before(c, start, run, n).ticker.Listing? && run[n].TickerStep?
  }

  /** Step `n` is the one with which the producer checks boost `i`. */
  ghost predicate Checks(c: Config, start: State, run: seq<Action>, n: int, i: nat)
    requires c.Valid() && IsRun(c, start, run)
  {
    0 <= n < |run| && Before(c, start, run, n).producer == Checking(i) && run[n].ProducerStep?
  }

  /** The state in which step `n` is taken. */
  ghost function Before(c: Config, start: State, run: seq<Action>, n: nat): State
    requires c.Valid() && IsRun(c, start, run) && n <= |run|
    decreases |run|
  {
    if n == |run| then After(c, start, run) else Before(c, start, run[..|run| - 1], n)
  }

  /**
   A tick among events: step `n` happens when the run of the manager has reached the view
   `trace[at[n]]`, at the time `now[n]`. `listed` are the boosts that were in the index.
   */
  datatype Tick = Tick(trace: seq<View>, at: seq<nat>, now: seq<int>, listed: seq<StartupCpuBoost>)

  ghost predicate ListingAt(c: Config, start: State, run: seq<Action>, t: Tick, n: int)
    requires c.Valid() && IsRun(c, start, run) && |t.at| == |run| && |t.listed| == |c.boosts|
  {
    Lists(c, start, run, n) ==>
      && t.at[n] < |t.trace|
      && var timed := t.trace[t.at[n]].timed;
      && (forall k :: k in c.boosts <==> k in timed)
      && (forall i :: 0 <= i < |c.boosts| ==> c.boosts[i] in timed && t.listed[i] == timed[c.boosts[i]])
  }

  ghost predicate CheckAt(c: Config, start: State, run: seq<Action>, t: Tick, n: int, i: nat)
    requires c.Valid() && IsRun(c, start, run) && |t.at| == |t.now| == |run| && |t.listed| == |c.boosts|
  {
    Checks(c, start, run, n, i) && i < |c.boosts| ==>
      && t.at[n] < |t.trace|
      && NoDuplicates(c.reported[i])
      && forall pod :: pod in c.reported[i] <==> ExpiredIn(t.trace[t.at[n]], t.listed[i], pod, t.now[n])
  }

  /** What the tick reads is what the views show: the index when it lists, and each boost when it checks that. */
  ghost predicate Reads(c: Config, start: State, run: seq<Action>, t: Tick)
    requires c.Valid() && IsRun(c, start, run)
  {
    && |t.at| == |t.now| == |run| && |t.listed| == |c.boosts|
    && NoDuplicates(c.boosts)
    && (forall n {:trigger ListingAt(c, start, run, t, n)} :: ListingAt(c, start, run, t, n))
    && (forall n, i {:trigger CheckAt(c, start, run, t, n, i)} :: CheckAt(c, start, run, t, n, i))
  }

  /** The listing, on the manager itself: what it reads is what the view shows. */
  method ListTimed(m: Manager.BoostManager, known: seq<StartupCpuBoost>, ghost v: View)
      returns (listed: seq<StartupCpuBoost>, ghost keys: seq<Key>)
    requires InOrder(m, known, v)
    ensures |listed| == |keys| && NoDuplicates(keys)
    ensures forall k :: k in keys <==> k in v.timed
    ensures forall i :: 0 <= i < |keys| ==> keys[i] in v.timed && listed[i] == v.timed[keys[i]]
  {
    listed, keys := m.timedBoosts.ListAll();
  }

  /** A check, on the boost itself: what it reports is what is expired in the view. */
  method CheckBoost(m: Manager.BoostManager, known: seq<StartupCpuBoost>, i: nat, now: int, ghost v: View)
      returns (pods: seq<Pod>, ghost names: seq<string>)
    requires InOrder(m, known, v) && i < |known|
    ensures |pods| == |names| && NoDuplicates(names)
    ensures forall n :: n in names <==> ExpiredIn(v, known[i], n, now)
  {
    pods, names := known[i].ValidateFixedPolicy(now);
    assert ShownAt(known, v.states, i);
    forall n
      ensures n in names <==> ExpiredIn(v, known[i], n, now)
    {
      if ExpiredIn(v, known[i], n, now) {
        var j :| && 0 <= j < |known| && known[j] == known[i] && n in v.states[j].tracked.pods
                 && Overdue(v.states[j].duration, v.states[j].tracked.pods[n], now);
        assert DifferentAt(known, i, j);
      }
    }
  }

  // ---------------------------------------------------------------------------
  // Every boost is checked
  // ---------------------------------------------------------------------------

  /** The producer has checked boost `i`. */
  predicate Past(p: Producer, i: nat)
  {
    match p
    case ProducerIdle => false
    case AtBoost(j) => j > i
    case Checking(j) => j > i
    case Sending(j, _) => j >= i
    case ProducerDone => true
  }

  /** Only a check of boost `i` gets the producer past it. */
  lemma PastStep(c: Config, s: State, a: Action, i: nat)
    requires c.Valid() && Enabled(c, s, a) && i < |c.boosts|
    requires Past(Apply(c, s, a).producer, i) && !Past(s.producer, i)
    ensures s.producer == Checking(i) && a.ProducerStep?
  {
  }

  lemma {:induction false} CheckedOnTheWay(c: Config, start: State, run: seq<Action>, i: nat) returns (n: nat)
    requires c.Valid() && IsRun(c, start, run) && start.producer.ProducerIdle? && i < |c.boosts|
    requires Past(After(c, start, run).producer, i)
    ensures Checks(c, start, run, n, i)
    decreases |run|
  {
    var most := run[..|run| - 1];
    if Past(After(c, start, most).producer, i) {
      n := CheckedOnTheWay(c, start, most, i);
    } else {
      n := |run| - 1;
      PastStep(c, After(c, start, most), run[n], i);
    }
  }

  lemma {:induction false} ListedOnTheWay(c: Config, start: State, run: seq<Action>) returns (n: nat)
    requires c.Valid() && IsRun(c, start, run) && start.producer.ProducerIdle?
    requires !After(c, start, run).producer.ProducerIdle?
    ensures Lists(c, start, run, n)
    decreases |run|
  {
    var most := run[..|run| - 1];
    if After(c, start, most).producer.ProducerIdle? {
      n := |run| - 1;
    } else {
      n := ListedOnTheWay(c, start, most);
    }
  }

  // ---------------------------------------------------------------------------
  // The attempts
  // ---------------------------------------------------------------------------

  lemma {:induction false} AllTasksHas(c: Config, i: nat, t: Task)
    requires c.Valid() && i <= |c.boosts|
    ensures t in AllTasksFrom(c, i) <==>
              exists j :: i <= j < |c.boosts| && t.boost == c.boosts[j] && t.pod in c.reported[j]
    decreases |c.boosts| - i
  {
    if i == |c.boosts| {
    } else {
      TasksOfHas(c, i, t);
      AllTasksHas(c, i + 1, t);
    }
  }

  /** The pod was expired when its boost, one of those that were in the index, was checked. */
  ghost predicate FoundExpired(c: Config, start: State, run: seq<Action>, t: Tick, task: Task, n: int, i: nat)
    requires c.Valid() && IsRun(c, start, run) && |t.at| == |t.now| == |run| && |t.listed| == |c.boosts|
  {
    && i < |c.boosts| && c.boosts[i] == task.boost
    && Checks(c, start, run, n, i) && t.at[n] < |t.trace|
    && ExpiredIn(t.trace[t.at[n]], t.listed[i], task.pod, t.now[n])
  }

  /**
   When the tick has returned, after any schedule and with any events in between: each pod
   that was expired when its boost was checked has had exactly one revert attempt, and no
   other pod any.
   */
  lemma CheckedPodsOnce(c: Config, handlers: seq<Handler>, run: seq<Action>, t: Tick, task: Task)
    requires c.Valid() && Fresh(handlers) && IsRun(c, Initial(c, handlers), run)
    requires After(c, Initial(c, handlers), run).ticker.Returned?
    requires Reads(c, Initial(c, handlers), run, t)
    ensures var start := Initial(c, handlers);
            Occurrences(Attempted(After(c, start, run).attempts), task) ==
            if exists n, i :: FoundExpired(c, start, run, t, task, n, i) then 1 else 0
  {
    var start := Initial(c, handlers);
    InvRun(c, handlers, run);
    ReturnedMeansDrained(c, After(c, start, run));
    forall i: nat | i < |c.boosts|
      ensures NoDuplicates(c.reported[i])
      ensures c.boosts[i] == task.boost && task.pod in c.reported[i] <==>
                exists n :: FoundExpired(c, start, run, t, task, n, i)
    {
      ReportIsRight(c, start, run, t, task, i);
    }
    OneAttemptEach(c, handlers, run, task);
    AllTasksHas(c, 0, task);
  }

  lemma ReportIsRight(c: Config, start: State, run: seq<Action>, t: Tick, task: Task, i: nat)
    requires c.Valid() && IsRun(c, start, run) && start.producer.ProducerIdle? && i < |c.boosts|
    requires Past(After(c, start, run).producer, i) && Reads(c, start, run, t)
    ensures NoDuplicates(c.reported[i])
    ensures c.boosts[i] == task.boost && task.pod in c.reported[i] <==>
              exists n :: FoundExpired(c, start, run, t, task, n, i)
  {
    var n := CheckedOnTheWay(c, start, run, i);
    assert CheckAt(c, start, run, t, n, i);
    if c.boosts[i] == task.boost && task.pod in c.reported[i] {
      assert FoundExpired(c, start, run, t, task, n, i);
    }
    if n' :| FoundExpired(c, start, run, t, task, n', i) {
      assert CheckAt(c, start, run, t, n', i);
    }
  }

  /**
   No boost is forgotten: one that is registered with a fixed duration when the tick reads
   the index is among those that it checks.
   */
  lemma RegisteredIsChecked(c: Config, handlers: seq<Handler>, run: seq<Action>, t: Tick, l: nat, j: nat)
      returns (i: nat, n: nat)
    requires c.Valid() && Fresh(handlers) && IsRun(c, Initial(c, handlers), run)
    requires After(c, Initial(c, handlers), run).ticker.Returned?
    requires Reads(c, Initial(c, handlers), run, t) && Lists(c, Initial(c, handlers), run, l)
    requires t.at[l] < |t.trace| && ViewInv(t.trace[t.at[l]])
    requires var v := t.trace[t.at[l]];
             && j < |v.known| && v.states[j].duration.Some?
             && var k := Key(v.known[j].namespace, v.known[j].name);
             && k in v.registered && v.registered[k] == v.known[j]
    ensures i < |c.boosts| && t.listed[i] == t.trace[t.at[l]].known[j]
    ensures Checks(c, Initial(c, handlers), run, n, i)
  {
    var start, v := Initial(c, handlers), t.trace[t.at[l]];
    var k := Key(v.known[j].namespace, v.known[j].name);
    assert ListingAt(c, start, run, t, l);
    i :| 0 <= i < |c.boosts| && c.boosts[i] == k;
    InvRun(c, handlers, run);
    ReturnedMeansDrained(c, After(c, start, run));
    n := CheckedOnTheWay(c, start, run, i);
  }
}
