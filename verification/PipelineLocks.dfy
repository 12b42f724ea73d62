/**
 The locks of a tick do exclude each other: this is not built into the model, where a
 lock is held by whoever is in the corresponding state, but follows from the guards.
 */
module PipelineLocks {
  import opened Pipeline

  predicate Holds(s: State, i: int, b: BoostId)
  {
    0 <= i < |s.workers| && WorkerHolds(s.workers[i], b)
  }

  predicate Handles(s: State, j: int, b: BoostId)
  {
    0 <= j < |s.handlers| && HandlerHolds(s.handlers[j], b)
  }

  predicate Peeks(s: State, j: int, b: BoostId)
  {
    0 <= j < |s.handlers| && HandlerReads(s.handlers[j], b)
  }

  predicate Writes(s: State, j: int)
  {
    0 <= j < |s.handlers| && WritesManager(s.handlers[j])
  }

  /** A boost has one writer and then no reader; so has the manager. */
  ghost predicate Exclusive(c: Config, s: State)
  {
    && (forall b, i, i' :: Holds(s, i, b) && Holds(s, i', b) ==> i == i')
    && (forall b, i, j :: Holds(s, i, b) ==> !Handles(s, j, b))
    && (forall b, j, j' :: Handles(s, j, b) && Handles(s, j', b) ==> j == j')
    && (forall b, i :: Holds(s, i, b) ==> !ProducerReads(c, s, b))
    && (forall b, i, j :: Holds(s, i, b) ==> !Peeks(s, j, b))
    && (forall b, j :: Handles(s, j, b) ==> !ProducerReads(c, s, b))
    && (forall b, j, j' :: Handles(s, j, b) ==> !Peeks(s, j', b))
    && (forall j, j' :: Writes(s, j) && Writes(s, j') ==> j == j')
    && (forall j :: Writes(s, j) ==> !ManagerRead(s))
  }

  lemma NoBoostWriter(s: State, b: BoostId)
    requires !BoostWritten(s, b)
    ensures forall i :: !Holds(s, i, b)
    ensures forall j :: !Handles(s, j, b)
  {
    forall i
      ensures !Holds(s, i, b)
    {
      if 0 <= i < |s.workers| {
        assert s.workers[i] in s.workers;
      }
    }
    forall j
      ensures !Handles(s, j, b)
    {
      if 0 <= j < |s.handlers| {
        assert s.handlers[j] in s.handlers;
      }
    }
  }

  lemma NoBoostReader(c: Config, s: State, b: BoostId)
    requires !BoostRead(c, s, b)
    ensures !ProducerReads(c, s, b) && forall j :: !Peeks(s, j, b)
  {
    forall j
      ensures !Peeks(s, j, b)
    {
      if 0 <= j < |s.handlers| {
        assert s.handlers[j] in s.handlers;
      }
    }
  }

  lemma NoManagerWriter(s: State)
    requires !ManagerWritten(s)
    ensures forall j :: !Writes(s, j)
  {
    forall j
      ensures !Writes(s, j)
    {
      if 0 <= j < |s.handlers| {
        assert s.handlers[j] in s.handlers;
      }
    }
  }

  lemma ExclusiveInitial(c: Config, handlers: seq<Handler>)
    requires c.Valid() && Fresh(handlers)
    ensures Exclusive(c, Initial(c, handlers))
  {
    var s := Initial(c, handlers);
    forall j | 0 <= j < |handlers|
      ensures !WritesManager(handlers[j])
    {
      assert handlers[j] in handlers;
    }
  }

  lemma ExclusiveTicker(c: Config, s: State, order: seq<BoostId>)
    requires c.Valid() && Exclusive(c, s) && Enabled(c, s, TickerStep(order))
    ensures Exclusive(c, ApplyTicker(s, order))
  {
    var s' := ApplyTicker(s, order);
    if s.ticker.WantList? || (s.ticker.WantReconcile? && s.ticker.todo != []) {
      NoManagerWriter(s);
    }
    assert forall j :: Writes(s', j) <==> Writes(s, j);
    assert forall i, b :: Holds(s', i, b) <==> Holds(s, i, b);
    assert forall j, b :: Handles(s', j, b) <==> Handles(s, j, b);
    assert forall j, b :: Peeks(s', j, b) <==> Peeks(s, j, b);
  }

  lemma ExclusiveProducer(c: Config, s: State)
    requires c.Valid() && Exclusive(c, s) && Enabled(c, s, ProducerStep)
    ensures Exclusive(c, ApplyProducer(c, s))
  {
    var s' := ApplyProducer(c, s);
    if s.producer.AtBoost? && s.producer.i < |c.boosts| {
      NoBoostWriter(s, c.boosts[s.producer.i]);
    }
    assert forall j :: Writes(s', j) <==> Writes(s, j);
    assert forall i, b :: Holds(s', i, b) <==> Holds(s, i, b);
    assert forall j, b :: Handles(s', j, b) <==> Handles(s, j, b);
    assert forall j, b :: Peeks(s', j, b) <==> Peeks(s, j, b);
  }

  lemma ExclusiveSupervisor(c: Config, s: State)
    requires c.Valid() && Exclusive(c, s) && Enabled(c, s, SupervisorStep)
    ensures Exclusive(c, ApplySupervisor(c, s))
  {
    var s' := ApplySupervisor(c, s);
    assert forall j :: Writes(s', j) <==> Writes(s, j);
    assert forall i, b :: Holds(s', i, b) ==> Holds(s, i, b);
    assert forall j, b :: Handles(s', j, b) <==> Handles(s, j, b);
    assert forall j, b :: Peeks(s', j, b) <==> Peeks(s, j, b);
  }

  lemma ExclusiveWorker(c: Config, s: State, i: nat, reverted: bool)
    requires c.Valid() && Exclusive(c, s) && Enabled(c, s, WorkerStep(i, reverted))
    ensures Exclusive(c, ApplyWorker(s, i, reverted))
  {
    var s' := ApplyWorker(s, i, reverted);
    assert forall j :: Writes(s', j) <==> Writes(s, j);
    assert forall j, b :: Handles(s', j, b) <==> Handles(s, j, b);
    assert forall j, b :: Peeks(s', j, b) <==> Peeks(s, j, b);
    if s.workers[i].Wanting? {
      var b := s.workers[i].task.boost;
      NoBoostWriter(s, b);
      NoBoostReader(c, s, b);
      assert forall i', b' :: Holds(s', i', b') ==> Holds(s, i', b') || (i' == i && b' == b);
    } else {
      assert forall i', b' :: Holds(s', i', b') ==> Holds(s, i', b');
    }
  }

  lemma ExclusiveHandler(c: Config, s: State, j: nat)
    requires c.Valid() && Exclusive(c, s) && Enabled(c, s, HandlerStep(j))
    ensures Exclusive(c, Apply(c, s, HandlerStep(j)))
  {
    var s' := Apply(c, s, HandlerStep(j));
    var h := s.handlers[j];
    assert forall i, b :: Holds(s', i, b) <==> Holds(s, i, b);
    if h.WantManager? {
      NoManagerWriter(s);
    }
    if h.WantRead? {
      NoManagerWriter(s);
      assert !WritesManager(s'.handlers[j]);
    }
    assert forall j' :: Writes(s', j') ==> Writes(s, j') || (j' == j && h.WantManager?);
    assert HoldRead in s'.handlers ==> HoldRead in s.handlers || h.WantRead? by {
      if HoldRead in s'.handlers {
        var k :| 0 <= k < |s'.handlers| && s'.handlers[k] == HoldRead;
        assert k != j ==> s.handlers[k] == HoldRead;
      }
    }
    if h.WantBoost? {
      var lock := h.locks[0];
      NoBoostWriter(s, lock.boost);
      if lock.write {
        NoBoostReader(c, s, lock.boost);
      }
      assert forall j', b :: Handles(s', j', b) ==> Handles(s, j', b) || (j' == j && lock == Lock(b, true));
      assert forall j', b :: Peeks(s', j', b) ==> Peeks(s, j', b) || (j' == j && lock == Lock(b, false));
    } else {
      assert forall j', b :: Handles(s', j', b) ==> Handles(s, j', b);
      assert forall j', b :: Peeks(s', j', b) ==> Peeks(s, j', b);
    }
  }

  lemma ExclusiveStep(c: Config, s: State, a: Action)
    requires c.Valid() && Exclusive(c, s) && Enabled(c, s, a)
    ensures Exclusive(c, Apply(c, s, a))
  {
    match a
    case TickerStep(order) => ExclusiveTicker(c, s, order);
    case ProducerStep => ExclusiveProducer(c, s);
    case SupervisorStep => ExclusiveSupervisor(c, s);
    case DrainerStep =>
      var s' := Apply(c, s, a);
      assert forall j :: Writes(s', j) <==> Writes(s, j);
      assert forall i, b :: Holds(s', i, b) <==> Holds(s, i, b);
      assert forall j, b :: Handles(s', j, b) <==> Handles(s, j, b);
      assert forall j, b :: Peeks(s', j, b) <==> Peeks(s, j, b);
    case WorkerStep(i, reverted) => ExclusiveWorker(c, s, i, reverted);
    case HandlerStep(j) => ExclusiveHandler(c, s, j);
  }

  /** In every reachable state no two processes are inside the same lock, except readers. */
  lemma {:induction false} LocksExclude(c: Config, handlers: seq<Handler>, run: seq<Action>)
    requires c.Valid() && Fresh(handlers) && IsRun(c, Initial(c, handlers), run)
    ensures Exclusive(c, After(c, Initial(c, handlers), run))
  {
    if run == [] {
      ExclusiveInitial(c, handlers);
    } else {
      var most := run[..|run| - 1];
      LocksExclude(c, handlers, most);
      ExclusiveStep(c, After(c, Initial(c, handlers), most), run[|run| - 1]);
    }
  }
}
