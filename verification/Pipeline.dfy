/**
 One tick of the time-based check, as a system of concurrent processes.

 The tick's own goroutine lists the timed boosts under the manager's read lock, starts
 a producer, a supervisor of `workers` workers and an error drainer, then collects
 reconcile requests until their channel is closed, and reconciles each of them once.
 Meanwhile handlers of pod and boost events take the manager lock and, while holding it,
 boost locks. A step that takes a read lock only needs that nobody writes, so that a run may
 let waiting readers in ahead of a waiting writer or the other way round. Go's
 `sync.RWMutex` does either, depending on who waited first; `Unblocked` is the strictest
 reading, in which a waiting writer keeps all readers out.

 Who holds a lock is read off the states of the processes. A send on a closed channel,
 which would panic, is a step that raises the `panicked` flag.
 */
module Pipeline {
  import opened NamespacedObjects

  type BoostId = Key
  type PodId = string

  datatype Task = Task(boost: BoostId, pod: PodId)

  /** `reported[i]` is what the policy check on `boosts[i]` will report. */
  datatype Config = Config(workers: nat, boosts: seq<BoostId>, reported: seq<seq<PodId>>) {
    ghost predicate Valid()
    {
      workers >= 1 && |reported| == |boosts|
    }
  }

  /** A buffered channel; its capacity is the number of workers. */
  datatype Channel<T> = Channel(queue: seq<T>, closed: bool)

  datatype Producer =
    | ProducerIdle
    | AtBoost(i: nat)                            // about to take the read lock of boost i
    | Checking(i: nat)                           // holding it
    | Sending(i: nat, pending: seq<Task>)
    | ProducerDone

  datatype Worker =
    | NotStarted
    | Ready
    | Wanting(task: Task)                        // waiting for the boost's lock
    | Reverting(task: Task)                      // holding it
    | SendingError(task: Task)
    | SendingRequest(task: Task)
    | Exited

  datatype Supervisor =
    | SupervisorIdle
    | Spawning(next: nat)
    | Waiting
    | ClosingErrors
    | SupervisorDone

  datatype Drainer = DrainerIdle | Draining | DrainerDone

  datatype Ticker =
    | WantList                                   // waiting for the manager's read lock
    | Listing                                    // holding it
    | Collecting
    | WantReconcile(todo: seq<BoostId>)          // waiting for the manager's read lock
    | Reconciling(todo: seq<BoostId>)            // holding it, for todo[0]
    | Returned

  /** A lock of a boost, for writing or for reading. */
  datatype Lock = Lock(boost: BoostId, write: bool)

  /** A handler of an event; `locks` are the ones it still has to take. */
  datatype Handler =
    | Arriving(locks: seq<Lock>)
    | WantManager(locks: seq<Lock>)
    | HoldManager(locks: seq<Lock>)
    | WantBoost(locks: seq<Lock>)                // holding the manager lock, waiting for locks[0]
    | HoldBoost(locks: seq<Lock>)                // holding both
    | WantRead
    | HoldRead
    | Left

  datatype State = State(
    ticker: Ticker,
    producer: Producer,
    supervisor: Supervisor,
    drainer: Drainer,
    workers: seq<Worker>,
    handlers: seq<Handler>,
    tasks: Channel<Task>,
    requests: Channel<BoostId>,
    errors: Channel<Task>,
    collected: set<BoostId>,
    reconciled: seq<BoostId>,
    attempts: seq<(Task, bool)>,                 // every revert so far, and whether it succeeded
    panicked: bool)

  /** A step of one process, with what the outside world decides in it. */
  datatype Action =
    | TickerStep(order: seq<BoostId>)            // `order`: the order in which the collected requests are visited
    | ProducerStep
    | SupervisorStep
    | DrainerStep
    | WorkerStep(worker: nat, reverted: bool)    // `reverted`: whether the revert succeeds
    | HandlerStep(handler: nat)

  function Initial(c: Config, handlers: seq<Handler>): State
  {
    State(WantList, ProducerIdle, SupervisorIdle, DrainerIdle,
          seq(c.workers, _ => NotStarted), handlers,
          Channel([], false), Channel([], false), Channel([], false),
          {}, [], [], false)
  }

  // ---------------------------------------------------------------------------
  // Locks
  // ---------------------------------------------------------------------------

  predicate WritesManager(h: Handler)
  {
    h.HoldManager? || h.WantBoost? || h.HoldBoost?
  }

  predicate ManagerWritten(s: State)
  {
    exists h :: h in s.handlers && WritesManager(h)
  }

  predicate ManagerRead(s: State)
  {
    s.ticker.Listing? || s.ticker.Reconciling? || HoldRead in s.handlers
  }

  predicate ManagerPending(s: State)
  {
    exists h :: h in s.handlers && h.WantManager?
  }

  predicate CanReadManager(s: State)
  {
    !ManagerWritten(s)
  }

  predicate CanWriteManager(s: State)
  {
    !ManagerWritten(s) && !ManagerRead(s)
  }

  predicate WorkerHolds(w: Worker, b: BoostId)
  {
    w.Reverting? && w.task.boost == b
  }

  predicate HandlerHolds(h: Handler, b: BoostId)
  {
    h.HoldBoost? && h.locks != [] && h.locks[0] == Lock(b, true)
  }

  predicate HandlerReads(h: Handler, b: BoostId)
  {
    h.HoldBoost? && h.locks != [] && h.locks[0] == Lock(b, false)
  }

  predicate BoostWritten(s: State, b: BoostId)
  {
    || (exists w :: w in s.workers && WorkerHolds(w, b))
    || (exists h :: h in s.handlers && HandlerHolds(h, b))
  }

  predicate ProducerReads(c: Config, s: State, b: BoostId)
  {
    s.producer.Checking? && s.producer.i < |c.boosts| && c.boosts[s.producer.i] == b
  }

  predicate BoostRead(c: Config, s: State, b: BoostId)
  {
    || ProducerReads(c, s, b)
    || (exists h :: h in s.handlers && HandlerReads(h, b))
  }

  predicate BoostPending(s: State, b: BoostId)
  {
    || (exists w :: w in s.workers && w.Wanting? && w.task.boost == b)
    || (exists h :: h in s.handlers && h.WantBoost? && h.locks != [] && h.locks[0] == Lock(b, true))
  }

  predicate CanReadBoost(s: State, b: BoostId)
  {
    !BoostWritten(s, b)
  }

  predicate CanWriteBoost(c: Config, s: State, b: BoostId)
  {
    !BoostWritten(s, b) && !BoostRead(c, s, b)
  }

  predicate CanLockBoost(c: Config, s: State, lock: Lock)
  {
    if lock.write then CanWriteBoost(c, s, lock.boost) else CanReadBoost(s, lock.boost)
  }

  // ---------------------------------------------------------------------------
  // Steps
  // ---------------------------------------------------------------------------

  /** A send blocks while the channel is full; on a closed channel it does not block, it panics. */
  predicate CanSend<T>(c: Config, ch: Channel<T>)
  {
    ch.closed || |ch.queue| < c.workers
  }

  function Send<T>(ch: Channel<T>, x: T): Channel<T>
  {
    if ch.closed then ch else ch.(queue := ch.queue + [x])
  }

  predicate CanReceive<T>(ch: Channel<T>)
  {
    ch.queue != [] || ch.closed
  }

  function TasksOf(c: Config, i: nat): seq<Task>
    requires i < |c.boosts| && i < |c.reported|
  {
    seq(|c.reported[i]|, k requires 0 <= k < |c.reported[i]| => Task(c.boosts[i], c.reported[i][k]))
  }

  ghost predicate IsOrderOf(order: seq<BoostId>, requests: set<BoostId>)
  {
    && (forall i, j :: 0 <= i < j < |order| ==> order[i] != order[j])
    && (set b | b in order) == requests
  }

  /** Empties the received requests into a set and lists that set in any order. */
  method DedupeReconcileRequests(received: seq<BoostId>) returns (result: seq<BoostId>)
    ensures IsOrderOf(result, set b | b in received)
  {
    var requests: set<BoostId> := {};
    for i := 0 to |received|
      invariant requests == set b | b in received[..i]
    {
      requests := requests + {received[i]};
      assert received[..i + 1] == received[..i] + [received[i]];
    }
    assert received[..|received|] == received;
    result := [];
    var left := requests;
    while left != {}
      invariant left <= requests && IsOrderOf(result, requests - left)
    {
      var b :| b in left;
      assert b !in result by {
        assert b !in (set x | x in result);
      }
      var longer := result + [b];
      assert (set x | x in longer) == (set x | x in result) + {b};
      result, left := longer, left - {b};
    }
    assert requests - {} == requests;
  }

  ghost predicate Enabled(c: Config, s: State, a: Action)
  {
    !s.panicked &&
    match a
    case TickerStep(order) => (
      match s.ticker
      case WantList => CanReadManager(s)
      case Listing => true
      case Collecting => CanReceive(s.requests) && (s.requests.queue == [] ==> IsOrderOf(order, s.collected))
      case WantReconcile(todo) => todo == [] || CanReadManager(s)
      case Reconciling(todo) => true
      case Returned => false)
    case ProducerStep => (
      match s.producer
      case ProducerIdle => false
      case AtBoost(i) => i < |c.boosts| ==> CanReadBoost(s, c.boosts[i])
      case Checking(i) => true
      case Sending(i, pending) => pending == [] || CanSend(c, s.tasks)
      case ProducerDone => false)
    case SupervisorStep => (
      match s.supervisor
      case SupervisorIdle => false
      case Spawning(next) => true
      case Waiting => forall w :: w in s.workers ==> w.Exited?
      case ClosingErrors => true
      case SupervisorDone => false)
    case DrainerStep => s.drainer.Draining? && CanReceive(s.errors)
    case WorkerStep(i, _) => (
      i < |s.workers| &&
      match s.workers[i]
      case NotStarted => false
      case Ready => CanReceive(s.tasks)
      case Wanting(task) => CanWriteBoost(c, s, task.boost)
      case Reverting(task) => true
      case SendingError(task) => CanSend(c, s.errors)
      case SendingRequest(task) => CanSend(c, s.requests)
      case Exited => false)
    case HandlerStep(j) => (
      j < |s.handlers| &&
      match s.handlers[j]
      case Arriving(_) => true
      case WantManager(_) => CanWriteManager(s)
      case HoldManager(_) => true
      case WantBoost(locks) => locks != [] && CanLockBoost(c, s, locks[0])
      case HoldBoost(locks) => locks != []
      case WantRead => CanReadManager(s)
      case HoldRead => true
      case Left => false)
  }

  /** The step can be taken even if waiting writers keep readers out. */
  ghost predicate Unblocked(c: Config, s: State, a: Action)
  {
    && Enabled(c, s, a)
    && (a.TickerStep? && (s.ticker.WantList? || (s.ticker.WantReconcile? && s.ticker.todo != [])) ==>
          !ManagerPending(s))
    && (a.ProducerStep? && s.producer.AtBoost? && s.producer.i < |c.boosts| ==>
          !BoostPending(s, c.boosts[s.producer.i]))
    && (a.HandlerStep? && s.handlers[a.handler].WantRead? ==> !ManagerPending(s))
    && (a.HandlerStep? && s.handlers[a.handler].WantBoost? && !s.handlers[a.handler].locks[0].write ==>
          !BoostPending(s, s.handlers[a.handler].locks[0].boost))
  }

  ghost function Apply(c: Config, s: State, a: Action): State
    requires c.Valid() && Enabled(c, s, a)
  {
    match a
    case TickerStep(order) => ApplyTicker(s, order)
    case ProducerStep => ApplyProducer(c, s)
    case SupervisorStep => ApplySupervisor(c, s)
    case DrainerStep =>
      if s.errors.queue == [] then s.(drainer := DrainerDone)
      else s.(errors := s.errors.(queue := s.errors.queue[1..]))
    case WorkerStep(i, reverted) => ApplyWorker(s, i, reverted)
    case HandlerStep(j) => s.(handlers := s.handlers[j := HandlerNext(s.handlers[j])])
  }

  function ApplyTicker(s: State, order: seq<BoostId>): State
  {
    match s.ticker
    case WantList => s.(ticker := Listing)
    case Listing => s.(ticker := Collecting, producer := AtBoost(0), supervisor := Spawning(0), drainer := Draining)
    case Collecting =>
      if s.requests.queue == [] then s.(ticker := WantReconcile(order))
      else s.(requests := s.requests.(queue := s.requests.queue[1..]), collected := s.collected + {s.requests.queue[0]})
    case WantReconcile(todo) => s.(ticker := if todo == [] then Returned else Reconciling(todo))
    case Reconciling(todo) =>
      if todo == [] then s else s.(ticker := WantReconcile(todo[1..]), reconciled := s.reconciled + [todo[0]])
    case Returned => s
  }

  function ApplyProducer(c: Config, s: State): State
    requires |c.reported| == |c.boosts|
  {
    match s.producer
    case ProducerIdle => s
    case AtBoost(i) =>
      if i < |c.boosts| then s.(producer := Checking(i))
      else s.(producer := ProducerDone, tasks := s.tasks.(closed := true), panicked := s.panicked || s.tasks.closed)
    case Checking(i) =>
      if i < |c.boosts| then s.(producer := Sending(i, TasksOf(c, i))) else s
    case Sending(i, pending) =>
      if pending == [] then s.(producer := AtBoost(i + 1))
      else s.(producer := Sending(i, pending[1..]), tasks := Send(s.tasks, pending[0]),
          panicked := s.panicked || s.tasks.closed)
    case ProducerDone => s
  }

  function ApplySupervisor(c: Config, s: State): State
  {
    match s.supervisor
    case SupervisorIdle => s
    case Spawning(next) =>
      if next < |s.workers| then s.(supervisor := Spawning(next + 1), workers := s.workers[next := Ready])
      else s.(supervisor := Waiting)
    case Waiting =>
      s.(supervisor := ClosingErrors, requests := s.requests.(closed := true),
          panicked := s.panicked || s.requests.closed)
    case ClosingErrors =>
      s.(supervisor := SupervisorDone, errors := s.errors.(closed := true), panicked := s.panicked || s.errors.closed)
    case SupervisorDone => s
  }

  function ApplyWorker(s: State, i: nat, reverted: bool): State
    requires i < |s.workers|
  {
    match s.workers[i]
    case NotStarted => s
    case Ready =>
      if s.tasks.queue == [] then s.(workers := s.workers[i := Exited])
      else s.(workers := s.workers[i := Wanting(s.tasks.queue[0])], tasks := s.tasks.(queue := s.tasks.queue[1..]))
    case Wanting(task) => s.(workers := s.workers[i := Reverting(task)])
    case Reverting(task) =>
      s.(workers := s.workers[i := if reverted then SendingRequest(task) else SendingError(task)],
         attempts := s.attempts + [(task, reverted)])
    case SendingError(task) =>
      s.(workers := s.workers[i := Ready], errors := Send(s.errors, task), panicked := s.panicked || s.errors.closed)
    case SendingRequest(task) =>
      s.(workers := s.workers[i := Ready], requests := Send(s.requests, task.boost),
          panicked := s.panicked || s.requests.closed)
    case Exited => s
  }

  function HandlerNext(h: Handler): Handler
  {
    match h
    case Arriving(locks) => WantManager(locks)
    case WantManager(locks) => HoldManager(locks)
    case HoldManager(locks) => if locks == [] then Left else WantBoost(locks)
    case WantBoost(locks) => HoldBoost(locks)
    case HoldBoost(locks) => HoldManager(if locks == [] then [] else locks[1..])
    case WantRead => HoldRead
    case HoldRead => Left
    case Left => Left
  }

  // ---------------------------------------------------------------------------
  // Runs
  // ---------------------------------------------------------------------------

  /** The actions can be taken one after the other. */
  ghost predicate IsRun(c: Config, s: State, run: seq<Action>)
    requires c.Valid()
    decreases |run|, 0
  {
    run == [] || (IsRun(c, s, run[..|run| - 1]) && Enabled(c, After(c, s, run[..|run| - 1]), run[|run| - 1]))
  }

  ghost function After(c: Config, s: State, run: seq<Action>): State
    requires c.Valid() && IsRun(c, s, run)
    decreases |run|, 1
  {
    if run == [] then s
    else Apply(c, After(c, s, run[..|run| - 1]), run[|run| - 1])
  }

  predicate Finished(s: State)
  {
    && s.ticker.Returned? && s.producer.ProducerDone? && s.supervisor.SupervisorDone? && s.drainer.DrainerDone?
    && (forall w :: w in s.workers ==> w.Exited?)
    && (forall h :: h in s.handlers ==> h.Left?)
  }

  /** Handlers that have not yet taken a lock. */
  predicate Fresh(handlers: seq<Handler>)
  {
    forall h :: h in handlers ==> h.Arriving? || h.WantRead? || h.Left?
  }

  function AllTasksFrom(c: Config, i: nat): seq<Task>
    requires |c.reported| == |c.boosts| && i <= |c.boosts|
    decreases |c.boosts| - i
  {
    if i == |c.boosts| then [] else TasksOf(c, i) + AllTasksFrom(c, i + 1)
  }

  /** Everything the policy checks of this tick report. */
  function AllTasks(c: Config): seq<Task>
    requires |c.reported| == |c.boosts|
  {
    AllTasksFrom(c, 0)
  }
}
