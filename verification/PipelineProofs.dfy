/**
 What holds of every schedule of a tick.
 */
module PipelineProofs {
  import opened Pipeline

  // ---------------------------------------------------------------------------
  // Where the tasks are
  // ---------------------------------------------------------------------------

  function Occurrences(ts: seq<Task>, t: Task): nat
  {
    multiset(ts)[t]
  }

  /** Whether a worker has received the task and not yet attempted it. */
  function Hand(w: Worker, t: Task): nat
  {
    if (w.Wanting? || w.Reverting?) && w.task == t then 1 else 0
  }

  function InHand(ws: seq<Worker>, t: Task): nat
  {
    if ws == [] then 0 else Hand(ws[0], t) + InHand(ws[1..], t)
  }

  lemma {:induction false} InHandUpdate(ws: seq<Worker>, i: nat, w: Worker, t: Task)
    requires i < |ws|
    ensures InHand(ws[i := w], t) + Hand(ws[i], t) == InHand(ws, t) + Hand(w, t)
  {
    if i == 0 {
      assert ws[i := w][1..] == ws[1..];
    } else {
      InHandUpdate(ws[1..], i - 1, w, t);
      assert ws[i := w][1..] == ws[1..][i - 1 := w];
    }
  }

  lemma {:induction false} InHandEmpty(ws: seq<Worker>, t: Task)
    requires forall i :: 0 <= i < |ws| ==> Hand(ws[i], t) == 0
    ensures InHand(ws, t) == 0
  {
    if ws == [] {
    } else {
      InHandEmpty(ws[1..], t);
    }
  }

  /** What the producer has still to send. */
  function Unsent(c: Config, p: Producer): seq<Task>
    requires |c.reported| == |c.boosts|
  {
    match p
    case ProducerIdle => AllTasks(c)
    case AtBoost(i) => if i <= |c.boosts| then AllTasksFrom(c, i) else []
    case Checking(i) => if i <= |c.boosts| then AllTasksFrom(c, i) else []
    case Sending(i, pending) => pending + (if i < |c.boosts| then AllTasksFrom(c, i + 1) else [])
    case ProducerDone => []
  }

  function Attempted(attempts: seq<(Task, bool)>): seq<Task>
  {
    seq(|attempts|, i requires 0 <= i < |attempts| => attempts[i].0)
  }

  // ---------------------------------------------------------------------------
  // The invariant
  // ---------------------------------------------------------------------------

  predicate Spawned(t: Ticker)
  {
    !t.WantList? && !t.Listing?
  }

  predicate AllExited(s: State)
  {
    forall i :: 0 <= i < |s.workers| ==> s.workers[i].Exited?
  }

  /** Which processes have started. */
  ghost predicate StartInv(c: Config, s: State)
  {
    && |s.workers| == c.workers
    && (Spawned(s.ticker) <==> !s.producer.ProducerIdle?)
    && (Spawned(s.ticker) <==> !s.supervisor.SupervisorIdle?)
    && (Spawned(s.ticker) <==> !s.drainer.DrainerIdle?)
    && (s.supervisor.SupervisorIdle? ==> forall i :: 0 <= i < |s.workers| ==> s.workers[i].NotStarted?)
    && (s.supervisor.Spawning? ==>
          forall i :: 0 <= i < |s.workers| ==> (s.workers[i].NotStarted? <==> i >= s.supervisor.next))
    && (s.supervisor.Waiting? ==> forall i :: 0 <= i < |s.workers| ==> !s.workers[i].NotStarted?)
  }

  /** Who has closed which channel, and what that says about the others. */
  ghost predicate ChannelInv(c: Config, s: State)
  {
    && |s.tasks.queue| <= c.workers && |s.requests.queue| <= c.workers && |s.errors.queue| <= c.workers
    && (s.tasks.closed <==> s.producer.ProducerDone?)
    && (s.requests.closed <==> s.supervisor.ClosingErrors? || s.supervisor.SupervisorDone?)
    && (s.errors.closed <==> s.supervisor.SupervisorDone?)
    && (s.requests.closed ==> AllExited(s))
    && (forall i :: 0 <= i < |s.workers| && s.workers[i].Exited? ==> s.tasks.closed && s.tasks.queue == [])
    && (s.ticker.WantReconcile? || s.ticker.Reconciling? || s.ticker.Returned? ==>
          s.requests.closed && s.requests.queue == [])
    && (s.drainer.DrainerDone? ==> s.errors.closed && s.errors.queue == [])
    && !s.panicked
  }

  ghost predicate PositionInv(c: Config, s: State)
  {
    && (s.producer.AtBoost? ==> s.producer.i <= |c.boosts|)
    && (s.producer.Checking? || s.producer.Sending? ==> s.producer.i < |c.boosts|)
    && (s.ticker.Reconciling? ==> s.ticker.todo != [])
    && (forall j :: 0 <= j < |s.handlers| && (s.handlers[j].WantBoost? || s.handlers[j].HoldBoost?) ==>
          s.handlers[j].locks != [])
  }

  /** Every reported task is in exactly one place. */
  ghost predicate TaskInv(c: Config, p: Producer, queue: seq<Task>, ws: seq<Worker>, attempts: seq<(Task, bool)>)
  {
    |c.reported| == |c.boosts| &&
    forall t ::
      Occurrences(AllTasks(c), t) ==
      Occurrences(Unsent(c, p), t) + Occurrences(queue, t) + InHand(ws, t) + Occurrences(Attempted(attempts), t)
  }

  /** Some revert for the boost has succeeded. */
  ghost predicate Succeeded(attempts: seq<(Task, bool)>, b: BoostId)
  {
    exists i :: 0 <= i < |attempts| && attempts[i].1 && attempts[i].0.boost == b
  }

  /** Some worker is about to send a request for the boost. */
  ghost predicate Announcing(ws: seq<Worker>, b: BoostId)
  {
    exists i :: 0 <= i < |ws| && ws[i].SendingRequest? && ws[i].task.boost == b
  }

  /** The requests that are collected or under way are those of the boosts with a successful revert. */
  ghost predicate RequestInv(attempts: seq<(Task, bool)>, collected: set<BoostId>, queue: seq<BoostId>, ws: seq<Worker>)
  {
    forall b :: Succeeded(attempts, b) <==> b in collected || b in queue || Announcing(ws, b)
  }

  /** What has been reconciled and what is still to do, once collecting is over. */
  ghost predicate ReconcileInv(t: Ticker, reconciled: seq<BoostId>, collected: set<BoostId>)
  {
    match t
    case WantReconcile(todo) => IsOrderOf(reconciled + todo, collected)
    case Reconciling(todo) => IsOrderOf(reconciled + todo, collected)
    case Returned => IsOrderOf(reconciled, collected)
    case _ => reconciled == []
  }

  /** Processes, channels and positions fit together. */
  ghost predicate ShapeInv(c: Config, s: State)
  {
    c.Valid() && StartInv(c, s) && ChannelInv(c, s) && PositionInv(c, s)
  }

  ghost predicate Inv(c: Config, s: State)
  {
    && ShapeInv(c, s)
    && TaskInv(c, s.producer, s.tasks.queue, s.workers, s.attempts)
    && RequestInv(s.attempts, s.collected, s.requests.queue, s.workers)
    && ReconcileInv(s.ticker, s.reconciled, s.collected)
  }

  lemma InvInitial(c: Config, handlers: seq<Handler>)
    requires c.Valid() && Fresh(handlers)
    ensures Inv(c, Initial(c, handlers))
  {
    var s := Initial(c, handlers);
    forall t
      ensures InHand(s.workers, t) == 0
    {
      InHandEmpty(s.workers, t);
    }
    assert Attempted(s.attempts) == [];
    forall j | 0 <= j < |handlers|
      ensures !handlers[j].WantBoost? && !handlers[j].HoldBoost?
    {
      assert handlers[j] in handlers;
    }
  }

  // ---------------------------------------------------------------------------
  // Every step keeps the invariant
  // ---------------------------------------------------------------------------

  lemma CollectKeepsRequests(attempts: seq<(Task, bool)>, collected: set<BoostId>, queue: seq<BoostId>, ws: seq<Worker>)
    requires queue != [] && RequestInv(attempts, collected, queue, ws)
    ensures RequestInv(attempts, collected + {queue[0]}, queue[1..], ws)
  {
    assert queue == [queue[0]] + queue[1..];
  }

  lemma ShapeTicker(c: Config, s: State, order: seq<BoostId>)
    requires ShapeInv(c, s) && Enabled(c, s, TickerStep(order))
    ensures ShapeInv(c, ApplyTicker(s, order))
  {
  }

  lemma OrderAdvances(t: Ticker, reconciled: seq<BoostId>, collected: set<BoostId>)
    requires t.Reconciling? && t.todo != [] && ReconcileInv(t, reconciled, collected)
    ensures ReconcileInv(WantReconcile(t.todo[1..]), reconciled + [t.todo[0]], collected)
  {
    assert reconciled + [t.todo[0]] + t.todo[1..] == reconciled + t.todo;
  }

  lemma ReconcileTicker(s: State, order: seq<BoostId>)
    requires ReconcileInv(s.ticker, s.reconciled, s.collected)
    requires s.ticker.Collecting? && s.requests.queue == [] ==> IsOrderOf(order, s.collected)
    ensures var s' := ApplyTicker(s, order); ReconcileInv(s'.ticker, s'.reconciled, s'.collected)
  {
    if s.ticker.Collecting? {
      assert s.reconciled + order == order;
    } else if s.ticker.WantReconcile? {
      assert s.ticker.todo == [] ==> s.reconciled + s.ticker.todo == s.reconciled;
    } else if s.ticker.Reconciling? && s.ticker.todo != [] {
      OrderAdvances(s.ticker, s.reconciled, s.collected);
    }
  }

  lemma InvTicker(c: Config, s: State, order: seq<BoostId>)
    requires Inv(c, s) && Enabled(c, s, TickerStep(order))
    ensures Inv(c, ApplyTicker(s, order))
  {
    ShapeTicker(c, s, order);
    ReconcileTicker(s, order);
    if s.ticker.Collecting? && s.requests.queue != [] {
      CollectKeepsRequests(s.attempts, s.collected, s.requests.queue, s.workers);
    }
  }

  lemma ShapeProducer(c: Config, s: State)
    requires ShapeInv(c, s) && Enabled(c, s, ProducerStep)
    ensures ShapeInv(c, ApplyProducer(c, s))
  {
  }

  /** A step of the producer other than a send leaves what is to be sent as it is. */
  lemma UnsentSame(c: Config, s: State)
    requires ShapeInv(c, s) && Enabled(c, s, ProducerStep)
    requires s.producer.Sending? ==> s.producer.pending == []
    ensures Unsent(c, ApplyProducer(c, s).producer) == Unsent(c, s.producer)
  {
  }

  lemma UnsentSend(c: Config, i: nat, pending: seq<Task>, queue: seq<Task>, t: Task)
    requires c.Valid() && i < |c.boosts| && pending != []
    ensures Occurrences(Unsent(c, Sending(i, pending[1..])), t) + Occurrences(queue + [pending[0]], t) ==
            Occurrences(Unsent(c, Sending(i, pending)), t) + Occurrences(queue, t)
  {
    var rest := AllTasksFrom(c, i + 1);
    assert pending + rest == [pending[0]] + (pending[1..] + rest);
  }

  lemma TasksProducer(c: Config, s: State)
    requires ShapeInv(c, s) && Enabled(c, s, ProducerStep)
    requires TaskInv(c, s.producer, s.tasks.queue, s.workers, s.attempts)
    ensures var s' := ApplyProducer(c, s); TaskInv(c, s'.producer, s'.tasks.queue, s.workers, s.attempts)
  {
    if s.producer.Sending? && s.producer.pending != [] {
      var i, pending, queue := s.producer.i, s.producer.pending, s.tasks.queue;
      var p' := Sending(i, pending[1..]);
      forall t
        ensures Occurrences(Unsent(c, p'), t) + Occurrences(queue + [pending[0]], t) ==
                Occurrences(Unsent(c, s.producer), t) + Occurrences(queue, t)
      {
        UnsentSend(c, i, pending, queue, t);
      }
      assert TaskInv(c, p', queue + [pending[0]], s.workers, s.attempts);
    } else {
      UnsentSame(c, s);
    }
  }

  lemma InvProducer(c: Config, s: State)
    requires Inv(c, s) && Enabled(c, s, ProducerStep)
    ensures Inv(c, ApplyProducer(c, s))
  {
    ShapeProducer(c, s);
    TasksProducer(c, s);
  }

  lemma ShapeSupervisor(c: Config, s: State)
    requires ShapeInv(c, s) && Enabled(c, s, SupervisorStep)
    ensures ShapeInv(c, ApplySupervisor(c, s))
  {
    if s.supervisor.Waiting? {
      forall i | 0 <= i < |s.workers|
        ensures s.workers[i].Exited?
      {
        assert s.workers[i] in s.workers;
      }
    }
  }

  /** A worker changes state but has the same in hand as before. */
  lemma TasksSame(c: Config, p: Producer, queue: seq<Task>, ws: seq<Worker>, attempts: seq<(Task, bool)>, i: nat,
                  w: Worker)
    requires i < |ws| && TaskInv(c, p, queue, ws, attempts)
    requires forall t :: Hand(w, t) == Hand(ws[i], t)
    ensures TaskInv(c, p, queue, ws[i := w], attempts)
  {
    forall t
      ensures InHand(ws[i := w], t) == InHand(ws, t)
    {
      InHandUpdate(ws, i, w, t);
    }
  }

  lemma InvSupervisor(c: Config, s: State)
    requires Inv(c, s) && Enabled(c, s, SupervisorStep)
    ensures Inv(c, ApplySupervisor(c, s))
  {
    ShapeSupervisor(c, s);
    if s.supervisor.Spawning? && s.supervisor.next < |s.workers| {
      TasksSame(c, s.producer, s.tasks.queue, s.workers, s.attempts, s.supervisor.next, Ready);
      AnnouncingUpdate(s.workers, s.supervisor.next, Ready);
    }
  }

  lemma AnnouncingUpdate(ws: seq<Worker>, i: nat, w: Worker)
    requires i < |ws| && !w.SendingRequest? && !ws[i].SendingRequest?
    ensures forall b :: Announcing(ws[i := w], b) <==> Announcing(ws, b)
  {
    forall b
      ensures Announcing(ws[i := w], b) <==> Announcing(ws, b)
    {
      if Announcing(ws, b) {
        var j :| 0 <= j < |ws| && ws[j].SendingRequest? && ws[j].task.boost == b;
        assert ws[i := w][j] == ws[j];
      }
      if Announcing(ws[i := w], b) {
        var j :| 0 <= j < |ws| && ws[i := w][j].SendingRequest? && ws[i := w][j].task.boost == b;
        assert ws[i := w][j] == ws[j];
      }
    }
  }

  lemma InvDrainer(c: Config, s: State)
    requires Inv(c, s) && Enabled(c, s, DrainerStep)
    ensures Inv(c, Apply(c, s, DrainerStep))
  {
  }

  lemma InvHandler(c: Config, s: State, j: nat)
    requires Inv(c, s) && Enabled(c, s, HandlerStep(j))
    ensures Inv(c, Apply(c, s, HandlerStep(j)))
  {
  }

  // ---------------------------------------------------------------------------
  // Workers
  // ---------------------------------------------------------------------------

  lemma ShapeWorker(c: Config, s: State, i: nat, reverted: bool)
    requires ShapeInv(c, s) && Enabled(c, s, WorkerStep(i, reverted))
    ensures ShapeInv(c, ApplyWorker(s, i, reverted))
  {
    assert !s.workers[i].Exited?;
    assert !s.requests.closed;
  }

  lemma TasksReceive(c: Config, p: Producer, queue: seq<Task>, ws: seq<Worker>, attempts: seq<(Task, bool)>, i: nat)
    requires i < |ws| && ws[i].Ready? && queue != [] && TaskInv(c, p, queue, ws, attempts)
    ensures TaskInv(c, p, queue[1..], ws[i := Wanting(queue[0])], attempts)
  {
    assert queue == [queue[0]] + queue[1..];
    forall t
      ensures InHand(ws[i := Wanting(queue[0])], t) + Occurrences(queue[1..], t) ==
              InHand(ws, t) + Occurrences(queue, t)
    {
      InHandUpdate(ws, i, Wanting(queue[0]), t);
    }
  }

  lemma TasksAttempt(c: Config, p: Producer, queue: seq<Task>, ws: seq<Worker>, attempts: seq<(Task, bool)>, i: nat,
                     w: Worker, reverted: bool)
    requires i < |ws| && ws[i].Reverting? && (w.SendingError? || w.SendingRequest?)
    requires TaskInv(c, p, queue, ws, attempts)
    ensures TaskInv(c, p, queue, ws[i := w], attempts + [(ws[i].task, reverted)])
  {
    var attempts' := attempts + [(ws[i].task, reverted)];
    assert Attempted(attempts') == Attempted(attempts) + [ws[i].task];
    forall t
      ensures InHand(ws[i := w], t) + Occurrences(Attempted(attempts'), t) ==
              InHand(ws, t) + Occurrences(Attempted(attempts), t)
    {
      InHandUpdate(ws, i, w, t);
    }
  }

  lemma TasksWorker(c: Config, s: State, i: nat, reverted: bool)
    requires ShapeInv(c, s) && Enabled(c, s, WorkerStep(i, reverted))
    requires TaskInv(c, s.producer, s.tasks.queue, s.workers, s.attempts)
    ensures var s' := ApplyWorker(s, i, reverted); TaskInv(c, s'.producer, s'.tasks.queue, s'.workers, s'.attempts)
  {
    var w := s.workers[i];
    match w
    case Ready =>
      if s.tasks.queue != [] {
        TasksReceive(c, s.producer, s.tasks.queue, s.workers, s.attempts, i);
      } else {
        TasksSame(c, s.producer, s.tasks.queue, s.workers, s.attempts, i, Exited);
      }
    case Wanting(task) =>
      TasksSame(c, s.producer, s.tasks.queue, s.workers, s.attempts, i, Reverting(task));
    case Reverting(task) =>
      TasksAttempt(c, s.producer, s.tasks.queue, s.workers, s.attempts, i,
                   if reverted then SendingRequest(task) else SendingError(task), reverted);
    case SendingError(task) =>
      TasksSame(c, s.producer, s.tasks.queue, s.workers, s.attempts, i, Ready);
    case SendingRequest(task) =>
      TasksSame(c, s.producer, s.tasks.queue, s.workers, s.attempts, i, Ready);
  }

  lemma SucceededMore(attempts: seq<(Task, bool)>, t: Task, ok: bool, b: BoostId)
    ensures Succeeded(attempts + [(t, ok)], b) <==> Succeeded(attempts, b) || (ok && t.boost == b)
  {
    var attempts' := attempts + [(t, ok)];
    if Succeeded(attempts, b) {
      var i :| 0 <= i < |attempts| && attempts[i].1 && attempts[i].0.boost == b;
      assert attempts'[i] == attempts[i];
    }
    if ok && t.boost == b {
      assert attempts'[|attempts|] == (t, ok);
    }
  }

  lemma AnnouncingMore(ws: seq<Worker>, i: nat, t: Task, b: BoostId)
    requires i < |ws| && !ws[i].SendingRequest?
    ensures Announcing(ws[i := SendingRequest(t)], b) <==> Announcing(ws, b) || t.boost == b
  {
    var ws' := ws[i := SendingRequest(t)];
    if Announcing(ws, b) {
      var j :| 0 <= j < |ws| && ws[j].SendingRequest? && ws[j].task.boost == b;
      assert ws'[j] == ws[j];
    }
    if t.boost == b {
      assert ws'[i] == SendingRequest(t);
    }
  }

  lemma AnnouncingSent(ws: seq<Worker>, i: nat, b: BoostId)
    requires i < |ws| && ws[i].SendingRequest?
    ensures Announcing(ws, b) <==> Announcing(ws[i := Ready], b) || ws[i].task.boost == b
  {
    AnnouncingMore(ws[i := Ready], i, ws[i].task, b);
    assert ws[i := Ready][i := SendingRequest(ws[i].task)] == ws;
  }

  lemma RequestsWorker(c: Config, s: State, i: nat, reverted: bool)
    requires ShapeInv(c, s) && Enabled(c, s, WorkerStep(i, reverted))
    requires RequestInv(s.attempts, s.collected, s.requests.queue, s.workers)
    ensures var s' := ApplyWorker(s, i, reverted); RequestInv(s'.attempts, s'.collected, s'.requests.queue, s'.workers)
  {
    var s' := ApplyWorker(s, i, reverted);
    forall b
      ensures Succeeded(s'.attempts, b) <==> b in s'.collected || b in s'.requests.queue || Announcing(s'.workers, b)
    {
      match s.workers[i]
      case Reverting(task) =>
        SucceededMore(s.attempts, task, reverted, b);
        if reverted {
          AnnouncingMore(s.workers, i, task, b);
        } else {
          AnnouncingUpdate(s.workers, i, SendingError(task));
        }
      case SendingRequest(task) =>
        AnnouncingSent(s.workers, i, b);
      case Ready =>
        AnnouncingUpdate(s.workers, i, s'.workers[i]);
      case Wanting(task) =>
        AnnouncingUpdate(s.workers, i, Reverting(task));
      case SendingError(task) =>
        AnnouncingUpdate(s.workers, i, Ready);
    }
  }

  lemma InvWorker(c: Config, s: State, i: nat, reverted: bool)
    requires Inv(c, s) && Enabled(c, s, WorkerStep(i, reverted))
    ensures Inv(c, ApplyWorker(s, i, reverted))
  {
    ShapeWorker(c, s, i, reverted);
    TasksWorker(c, s, i, reverted);
    RequestsWorker(c, s, i, reverted);
  }

  lemma InvStep(c: Config, s: State, a: Action)
    requires Inv(c, s) && Enabled(c, s, a)
    ensures Inv(c, Apply(c, s, a))
  {
    match a
    case TickerStep(order) => InvTicker(c, s, order);
    case ProducerStep => InvProducer(c, s);
    case SupervisorStep => InvSupervisor(c, s);
    case DrainerStep => InvDrainer(c, s);
    case WorkerStep(i, reverted) => InvWorker(c, s, i, reverted);
    case HandlerStep(j) => InvHandler(c, s, j);
  }

  lemma {:induction false} InvRun(c: Config, handlers: seq<Handler>, run: seq<Action>)
    requires c.Valid() && Fresh(handlers) && IsRun(c, Initial(c, handlers), run)
    ensures Inv(c, After(c, Initial(c, handlers), run))
  {
    if run == [] {
      InvInitial(c, handlers);
    } else {
      var most := run[..|run| - 1];
      InvRun(c, handlers, most);
      InvStep(c, After(c, Initial(c, handlers), most), run[|run| - 1]);
    }
  }
}
