/**
 Every tick ends, and ends with the right result.
 */
module PipelineProgress {
  import opened Wrappers
  import opened Pipeline
  import opened PipelineProofs

  // ---------------------------------------------------------------------------
  // Some process can always move
  // ---------------------------------------------------------------------------

  /** Some step can be taken, under the strictest reading of the locks. */
  ghost predicate CanMove(c: Config, s: State)
  {
    exists a :: Unblocked(c, s, a)
  }

  lemma WorkerMoves(c: Config, s: State, i: nat)
    requires Enabled(c, s, WorkerStep(i, true))
    ensures CanMove(c, s)
  {
    assert Unblocked(c, s, WorkerStep(i, true));
  }

  /** Whoever holds a boost lock can move. */
  lemma BoostHolderMoves(c: Config, s: State, b: BoostId)
    requires Inv(c, s) && !CanWriteBoost(c, s, b)
    ensures CanMove(c, s)
  {
    if ProducerReads(c, s, b) {
      assert Unblocked(c, s, ProducerStep);
    } else if BoostRead(c, s, b) {
      var j :| 0 <= j < |s.handlers| && HandlerReads(s.handlers[j], b);
      assert Unblocked(c, s, HandlerStep(j));
    } else if exists w :: w in s.workers && WorkerHolds(w, b) {
      var i :| 0 <= i < |s.workers| && WorkerHolds(s.workers[i], b);
      assert Unblocked(c, s, WorkerStep(i, true));
    } else {
      var j :| 0 <= j < |s.handlers| && HandlerHolds(s.handlers[j], b);
      assert Unblocked(c, s, HandlerStep(j));
    }
  }

  /** Whoever keeps a reader out of a boost lock, by holding it or by waiting to write, can move. */
  lemma BoostReadBlockerMoves(c: Config, s: State, b: BoostId)
    requires Inv(c, s) && (!CanReadBoost(s, b) || BoostPending(s, b))
    ensures CanMove(c, s)
  {
    if !CanWriteBoost(c, s, b) {
      BoostHolderMoves(c, s, b);
    } else if exists w :: w in s.workers && w.Wanting? && w.task.boost == b {
      var i :| 0 <= i < |s.workers| && s.workers[i].Wanting? && s.workers[i].task.boost == b;
      WorkerMoves(c, s, i);
    } else {
      var j :| 0 <= j < |s.handlers| && s.handlers[j].WantBoost? && s.handlers[j].locks != [] &&
               s.handlers[j].locks[0] == Lock(b, true);
      assert Unblocked(c, s, HandlerStep(j));
    }
  }

  /** A handler that has the manager lock can move, or somebody it waits for can. */
  lemma ManagerWriterMoves(c: Config, s: State, j: nat)
    requires Inv(c, s) && j < |s.handlers| && WritesManager(s.handlers[j])
    ensures CanMove(c, s)
  {
    if s.handlers[j].WantBoost? && s.handlers[j].locks[0].write && !CanWriteBoost(c, s, s.handlers[j].locks[0].boost) {
      BoostHolderMoves(c, s, s.handlers[j].locks[0].boost);
    } else if s.handlers[j].WantBoost? && !s.handlers[j].locks[0].write &&
              (!CanReadBoost(s, s.handlers[j].locks[0].boost) || BoostPending(s, s.handlers[j].locks[0].boost)) {
      BoostReadBlockerMoves(c, s, s.handlers[j].locks[0].boost);
    } else {
      assert Unblocked(c, s, HandlerStep(j));
    }
  }

  lemma ManagerHolderMoves(c: Config, s: State)
    requires Inv(c, s) && !CanWriteManager(s)
    ensures CanMove(c, s)
  {
    if ManagerWritten(s) {
      var j :| 0 <= j < |s.handlers| && WritesManager(s.handlers[j]);
      ManagerWriterMoves(c, s, j);
    } else if HoldRead in s.handlers {
      var j :| 0 <= j < |s.handlers| && s.handlers[j] == HoldRead;
      assert Unblocked(c, s, HandlerStep(j));
    } else {
      assert Unblocked(c, s, TickerStep([]));
    }
  }

  lemma ManagerReadBlockerMoves(c: Config, s: State)
    requires Inv(c, s) && (!CanReadManager(s) || ManagerPending(s))
    ensures CanMove(c, s)
  {
    if ManagerWritten(s) || ManagerRead(s) {
      ManagerHolderMoves(c, s);
    } else {
      var j :| 0 <= j < |s.handlers| && s.handlers[j].WantManager?;
      assert Unblocked(c, s, HandlerStep(j));
    }
  }

  /** As long as a handler is there, something can move. */
  lemma HandlerMoves(c: Config, s: State, j: nat)
    requires Inv(c, s) && j < |s.handlers| && !s.handlers[j].Left?
    ensures CanMove(c, s)
  {
    var h := s.handlers[j];
    if WritesManager(h) {
      ManagerWriterMoves(c, s, j);
    } else if h.WantManager? && !CanWriteManager(s) {
      ManagerHolderMoves(c, s);
    } else if h.WantRead? && (!CanReadManager(s) || ManagerPending(s)) {
      ManagerReadBlockerMoves(c, s);
    } else {
      assert Unblocked(c, s, HandlerStep(j));
    }
  }

  /** A worker with a task can move, or whoever it waits for can. */
  lemma BusyWorkerMoves(c: Config, s: State, i: nat)
    requires Inv(c, s) && i < |s.workers|
    requires !s.workers[i].NotStarted? && !s.workers[i].Ready? && !s.workers[i].Exited?
    ensures CanMove(c, s)
  {
    match s.workers[i]
    case Wanting(task) =>
      if CanWriteBoost(c, s, task.boost) {
        WorkerMoves(c, s, i);
      } else {
        BoostHolderMoves(c, s, task.boost);
      }
    case Reverting(_) =>
      WorkerMoves(c, s, i);
    case SendingError(_) =>
      if CanSend(c, s.errors) {
        WorkerMoves(c, s, i);
      } else {
        assert s.drainer.Draining?;
        assert Unblocked(c, s, DrainerStep);
      }
    case SendingRequest(_) =>
      if CanSend(c, s.requests) {
        WorkerMoves(c, s, i);
      } else {
        assert s.ticker.Collecting?;
        assert Unblocked(c, s, TickerStep([]));
      }
  }

  /** While the producer is at work and nobody has exited, something can move. */
  lemma ProducerMoves(c: Config, s: State)
    requires Inv(c, s) && !s.producer.ProducerIdle? && !s.producer.ProducerDone?
    requires |s.tasks.queue| < c.workers
    ensures CanMove(c, s)
  {
    if s.producer.AtBoost? && s.producer.i < |c.boosts| &&
       (!CanReadBoost(s, c.boosts[s.producer.i]) || BoostPending(s, c.boosts[s.producer.i])) {
      BoostReadBlockerMoves(c, s, c.boosts[s.producer.i]);
    } else {
      assert Unblocked(c, s, ProducerStep);
    }
  }

  /** While some worker is left, something can move. */
  lemma WorkersMove(c: Config, s: State, i: nat)
    requires Inv(c, s) && i < |s.workers| && !s.workers[i].Exited? && !s.workers[i].NotStarted?
    ensures CanMove(c, s)
  {
    if !s.workers[i].Ready? {
      BusyWorkerMoves(c, s, i);
    } else if CanReceive(s.tasks) {
      WorkerMoves(c, s, i);
    } else {
      ProducerMoves(c, s);
    }
  }

  lemma SupervisorMoves(c: Config, s: State)
    requires Inv(c, s) && !s.supervisor.SupervisorIdle? && !s.supervisor.SupervisorDone?
    ensures CanMove(c, s)
  {
    if s.supervisor.Waiting? && !(forall w :: w in s.workers ==> w.Exited?) {
      var i :| 0 <= i < |s.workers| && !s.workers[i].Exited?;
      WorkersMove(c, s, i);
    } else {
      assert Unblocked(c, s, SupervisorStep);
    }
  }

  lemma SomeOrder(requests: set<BoostId>) returns (order: seq<BoostId>)
    ensures IsOrderOf(order, requests)
  {
    if requests == {} {
      order := [];
    } else {
      var b :| b in requests;
      order := SomeOrder(requests - {b});
      assert b !in order by {
        assert b !in (set x | x in order);
      }
      var longer := order + [b];
      assert (set x | x in longer) == (set x | x in order) + {b};
      order := longer;
    }
  }

  lemma TickerMoves(c: Config, s: State)
    requires Inv(c, s) && !s.ticker.Returned?
    ensures CanMove(c, s)
  {
    match s.ticker
    case WantList =>
      if CanReadManager(s) && !ManagerPending(s) {
        assert Unblocked(c, s, TickerStep([]));
      } else {
        ManagerReadBlockerMoves(c, s);
      }
    case Listing =>
      assert Unblocked(c, s, TickerStep([]));
    case Collecting =>
      if CanReceive(s.requests) {
        var order := SomeOrder(s.collected);
        assert Unblocked(c, s, TickerStep(order));
      } else {
        SupervisorMoves(c, s);
      }
    case WantReconcile(todo) =>
      if todo == [] || (CanReadManager(s) && !ManagerPending(s)) {
        assert Unblocked(c, s, TickerStep([]));
      } else {
        ManagerReadBlockerMoves(c, s);
      }
    case Reconciling(todo) =>
      assert Unblocked(c, s, TickerStep([]));
  }

  lemma ReturnedMeansDrained(c: Config, s: State)
    requires Inv(c, s) && s.ticker.Returned?
    ensures AllExited(s) && s.producer.ProducerDone? && s.tasks.queue == []
  {
    assert s.workers[0].Exited?;
  }

  /** No reachable unfinished state is stuck. */
  lemma NeverStuck(c: Config, s: State)
    requires Inv(c, s) && !Finished(s)
    ensures CanMove(c, s)
  {
    if !s.ticker.Returned? {
      TickerMoves(c, s);
    } else {
      ReturnedMeansDrained(c, s);
      if !s.supervisor.SupervisorDone? {
        SupervisorMoves(c, s);
      } else if !s.drainer.DrainerDone? {
        assert Unblocked(c, s, DrainerStep);
      } else {
        var j :| 0 <= j < |s.handlers| && !s.handlers[j].Left?;
        HandlerMoves(c, s, j);
      }
    }
  }

  // ---------------------------------------------------------------------------
  // Every step uses up some of a finite amount of work
  // ---------------------------------------------------------------------------

  function WorkFrom(c: Config, i: nat): nat
    requires |c.reported| == |c.boosts| && i <= |c.boosts|
    decreases |c.boosts| - i
  {
    if i == |c.boosts| then 1 else 3 + 8 * |c.reported[i]| + WorkFrom(c, i + 1)
  }

  function ProducerWork(c: Config, p: Producer): nat
    requires |c.reported| == |c.boosts|
  {
    match p
    case ProducerIdle => WorkFrom(c, 0)
    case AtBoost(i) => if i <= |c.boosts| then WorkFrom(c, i) else 0
    case Checking(i) => if i < |c.boosts| then WorkFrom(c, i) - 1 else 0
    case Sending(i, pending) => if i < |c.boosts| then 1 + 8 * |pending| + WorkFrom(c, i + 1) else 0
    case ProducerDone => 0
  }

  function WorkerWork(w: Worker): nat
  {
    match w
    case NotStarted => 1
    case Ready => 1
    case Wanting(_) => 7
    case Reverting(_) => 6
    case SendingError(_) => 5
    case SendingRequest(_) => 5
    case Exited => 0
  }

  function WorkersWork(ws: seq<Worker>): nat
  {
    if ws == [] then 0 else WorkerWork(ws[0]) + WorkersWork(ws[1..])
  }

  function HandlerWork(h: Handler): nat
  {
    match h
    case Arriving(locks) => 3 * |locks| + 3
    case WantManager(locks) => 3 * |locks| + 2
    case HoldManager(locks) => 3 * |locks| + 1
    case WantBoost(locks) => 3 * |locks|
    case HoldBoost(locks) => if locks == [] then 0 else 3 * |locks| - 1
    case WantRead => 2
    case HoldRead => 1
    case Left => 0
  }

  function HandlersWork(hs: seq<Handler>): nat
  {
    if hs == [] then 0 else HandlerWork(hs[0]) + HandlersWork(hs[1..])
  }

  function SupervisorWork(c: Config, p: Supervisor): nat
  {
    match p
    case SupervisorIdle => c.workers + 3
    case Spawning(next) => (if next < c.workers then c.workers - next else 0) + 3
    case Waiting => 2
    case ClosingErrors => 1
    case SupervisorDone => 0
  }

  function TickerWork(t: Ticker, collected: set<BoostId>): nat
  {
    match t
    case WantList => 4 + 2 * |collected|
    case Listing => 3 + 2 * |collected|
    case Collecting => 2 + 2 * |collected|
    case WantReconcile(todo) => 1 + 2 * |todo|
    case Reconciling(todo) => 2 * |todo|
    case Returned => 0
  }

  function Work(c: Config, s: State): nat
    requires |c.reported| == |c.boosts|
  {
    TickerWork(s.ticker, s.collected) + ProducerWork(c, s.producer) + SupervisorWork(c, s.supervisor) +
    (if s.drainer.DrainerDone? then 0 else 1) + WorkersWork(s.workers) + HandlersWork(s.handlers) +
    7 * |s.tasks.queue| + 3 * |s.requests.queue| + |s.errors.queue|
  }

  lemma {:induction false} WorkersWorkUpdate(ws: seq<Worker>, i: nat, w: Worker)
    requires i < |ws|
    ensures WorkersWork(ws[i := w]) == WorkersWork(ws) - WorkerWork(ws[i]) + WorkerWork(w)
  {
    if i == 0 {
      assert ws[i := w][1..] == ws[1..];
    } else {
      WorkersWorkUpdate(ws[1..], i - 1, w);
      assert ws[i := w][1..] == ws[1..][i - 1 := w];
    }
  }

  lemma {:induction false} HandlersWorkUpdate(hs: seq<Handler>, i: nat, h: Handler)
    requires i < |hs|
    ensures HandlersWork(hs[i := h]) == HandlersWork(hs) - HandlerWork(hs[i]) + HandlerWork(h)
  {
    if i == 0 {
      assert hs[i := h][1..] == hs[1..];
    } else {
      HandlersWorkUpdate(hs[1..], i - 1, h);
      assert hs[i := h][1..] == hs[1..][i - 1 := h];
    }
  }

  lemma {:induction false} OrderLength(order: seq<BoostId>, requests: set<BoostId>)
    requires IsOrderOf(order, requests)
    ensures |order| == |requests|
  {
    if order == [] {
      assert requests == {};
    } else {
      var most, last := order[..|order| - 1], order[|order| - 1];
      assert order == most + [last];
      assert last !in most;
      assert (set b | b in most) == requests - {last};
      OrderLength(most, requests - {last});
    }
  }

  lemma TickerWorks(c: Config, s: State, order: seq<BoostId>)
    requires Inv(c, s) && Enabled(c, s, TickerStep(order))
    ensures Work(c, ApplyTicker(s, order)) < Work(c, s)
  {
    if s.ticker.Collecting? && s.requests.queue == [] {
      OrderLength(order, s.collected);
    }
  }

  lemma ProducerWorks(c: Config, s: State)
    requires Inv(c, s) && Enabled(c, s, ProducerStep)
    ensures Work(c, ApplyProducer(c, s)) < Work(c, s)
  {
  }

  lemma SupervisorWorks(c: Config, s: State)
    requires Inv(c, s) && Enabled(c, s, SupervisorStep)
    ensures Work(c, ApplySupervisor(c, s)) < Work(c, s)
  {
    if s.supervisor.Spawning? && s.supervisor.next < |s.workers| {
      WorkersWorkUpdate(s.workers, s.supervisor.next, Ready);
    }
  }

  lemma WorkerWorks(c: Config, s: State, i: nat, reverted: bool)
    requires Inv(c, s) && Enabled(c, s, WorkerStep(i, reverted))
    ensures Work(c, ApplyWorker(s, i, reverted)) < Work(c, s)
  {
    WorkersWorkUpdate(s.workers, i, ApplyWorker(s, i, reverted).workers[i]);
  }

  lemma DrainerWorks(c: Config, s: State)
    requires Inv(c, s) && Enabled(c, s, DrainerStep)
    ensures Work(c, Apply(c, s, DrainerStep)) < Work(c, s)
  {
  }

  lemma HandlerWorks(c: Config, s: State, j: nat)
    requires Inv(c, s) && Enabled(c, s, HandlerStep(j))
    ensures Work(c, Apply(c, s, HandlerStep(j))) < Work(c, s)
  {
    HandlersWorkUpdate(s.handlers, j, HandlerNext(s.handlers[j]));
  }

  /** Every step strictly lowers the amount of work left. */
  lemma StepUsesWork(c: Config, s: State, a: Action)
    requires Inv(c, s) && Enabled(c, s, a)
    ensures Work(c, Apply(c, s, a)) < Work(c, s)
  {
    match a
    case TickerStep(order) => TickerWorks(c, s, order);
    case ProducerStep => ProducerWorks(c, s);
    case SupervisorStep => SupervisorWorks(c, s);
    case DrainerStep => DrainerWorks(c, s);
    case WorkerStep(i, reverted) => WorkerWorks(c, s, i, reverted);
    case HandlerStep(j) => HandlerWorks(c, s, j);
  }

  /** No run is longer than the work there is at the start. */
  lemma {:induction false} RunsAreBounded(c: Config, handlers: seq<Handler>, run: seq<Action>)
    requires c.Valid() && Fresh(handlers) && IsRun(c, Initial(c, handlers), run)
    ensures |run| + Work(c, After(c, Initial(c, handlers), run)) <= Work(c, Initial(c, handlers))
  {
    if run == [] {
    } else {
      var most := run[..|run| - 1];
      RunsAreBounded(c, handlers, most);
      InvRun(c, handlers, most);
      StepUsesWork(c, After(c, Initial(c, handlers), most), run[|run| - 1]);
    }
  }

  /** A run that has not finished can be continued, and there is work left for that. */
  lemma UnfinishedRunContinues(c: Config, handlers: seq<Handler>, run: seq<Action>) returns (a: Action)
    requires c.Valid() && Fresh(handlers) && IsRun(c, Initial(c, handlers), run)
    requires !Completes(c, Initial(c, handlers), run)
    ensures IsRun(c, Initial(c, handlers), run + [a]) && |run| < Work(c, Initial(c, handlers))
  {
    var s := After(c, Initial(c, handlers), run);
    InvRun(c, handlers, run);
    NeverStuck(c, s);
    a :| Unblocked(c, s, a);
    assert (run + [a])[..|run|] == run;
    RunsAreBounded(c, handlers, run + [a]);
  }

  ghost predicate Completes(c: Config, start: State, run: seq<Action>)
    requires c.Valid()
  {
    IsRun(c, start, run) && Finished(After(c, start, run))
  }

  /** Every run is the beginning of one that ends with the tick returned and every process done. */
  lemma {:induction false} RunsFinish(c: Config, handlers: seq<Handler>, run: seq<Action>) returns (more: seq<Action>)
    requires c.Valid() && Fresh(handlers) && IsRun(c, Initial(c, handlers), run)
    ensures Completes(c, Initial(c, handlers), run + more)
    decreases Work(c, Initial(c, handlers)) - |run|
  {
    var start := Initial(c, handlers);
    if Completes(c, start, run) {
      more := [];
      assert run + more == run;
    } else {
      var a := UnfinishedRunContinues(c, handlers, run);
      var rest := RunsFinish(c, handlers, run + [a]);
      more := [a] + rest;
      assert run + more == run + [a] + rest;
    }
  }

  // ---------------------------------------------------------------------------
  // The result
  // ---------------------------------------------------------------------------

  lemma NothingLeft(c: Config, s: State, t: Task)
    requires Inv(c, s) && s.ticker.Returned?
    ensures Occurrences(Attempted(s.attempts), t) == Occurrences(AllTasks(c), t)
  {
    ReturnedMeansDrained(c, s);
    InHandEmpty(s.workers, t);
  }

  lemma NothingAnnounced(c: Config, s: State, b: BoostId)
    requires Inv(c, s) && s.ticker.Returned?
    ensures Succeeded(s.attempts, b) <==> b in s.collected
  {
    ReturnedMeansDrained(c, s);
  }

  /**
   When the tick has returned, whatever the schedule was: every reported pod has had
   exactly one revert attempt, and exactly the boosts with a successful revert have
   been reconciled, each once.
   */
  lemma TickResult(c: Config, handlers: seq<Handler>, run: seq<Action>)
    requires c.Valid() && Fresh(handlers) && IsRun(c, Initial(c, handlers), run)
    requires After(c, Initial(c, handlers), run).ticker.Returned?
    ensures var s := After(c, Initial(c, handlers), run);
            && multiset(Attempted(s.attempts)) == multiset(AllTasks(c))
            && (forall i, j :: 0 <= i < j < |s.reconciled| ==> s.reconciled[i] != s.reconciled[j])
            && (forall b :: b in s.reconciled <==> Succeeded(s.attempts, b))
  {
    var s := After(c, Initial(c, handlers), run);
    InvRun(c, handlers, run);
    forall t
      ensures multiset(Attempted(s.attempts))[t] == multiset(AllTasks(c))[t]
    {
      NothingLeft(c, s, t);
    }
    forall b
      ensures b in s.reconciled <==> Succeeded(s.attempts, b)
    {
      NothingAnnounced(c, s, b);
      assert b in s.reconciled <==> b in (set x | x in s.reconciled);
    }
  }

  /** The boosts differ, and no policy check reports a pod twice. */
  ghost predicate ReportsDistinct(c: Config)
  {
    && (forall i, j :: 0 <= i < j < |c.boosts| ==> c.boosts[i] != c.boosts[j])
    && (forall i :: 0 <= i < |c.reported| ==> NoDuplicates(c.reported[i]))
  }

  lemma {:induction false} AtMostOnce<T(!new)>(xs: seq<T>, x: T)
    requires NoDuplicates(xs)
    ensures multiset(xs)[x] <= 1
  {
    if xs == [] {
    } else {
      var init := xs[..|xs| - 1];
      assert xs == init + [xs[|xs| - 1]];
      AtMostOnce(init, x);
      if x == xs[|xs| - 1] {
        assert x !in init;
      }
    }
  }

  lemma {:induction false} TasksFromLaterBoosts(c: Config, i: nat, t: Task)
    requires c.Valid() && i <= |c.boosts| && t in AllTasksFrom(c, i)
    ensures exists j :: i <= j < |c.boosts| && t.boost == c.boosts[j]
    decreases |c.boosts| - i
  {
    if t !in TasksOf(c, i) {
      TasksFromLaterBoosts(c, i + 1, t);
    }
  }

  lemma OnceInParts<T>(xs: seq<T>, ys: seq<T>, x: T)
    requires multiset(xs)[x] <= 1 && multiset(ys)[x] <= 1 && (x in xs ==> x !in ys)
    ensures multiset(xs + ys)[x] <= 1
  {
    assert x in xs <==> x in multiset(xs);
    assert x in ys <==> x in multiset(ys);
  }

  lemma TasksOfDistinct(c: Config, i: nat)
    requires c.Valid() && ReportsDistinct(c) && i < |c.boosts|
    ensures NoDuplicates(TasksOf(c, i))
  {
    var here := TasksOf(c, i);
    forall j, k | 0 <= j < k < |here|
      ensures here[j] != here[k]
    {
      assert here[j].pod == c.reported[i][j] && here[k].pod == c.reported[i][k];
    }
  }

  lemma {:induction false} TaskAtMostOnce(c: Config, i: nat, t: Task)
    requires c.Valid() && ReportsDistinct(c) && i <= |c.boosts|
    ensures Occurrences(AllTasksFrom(c, i), t) <= 1
    decreases |c.boosts| - i
  {
    if i == |c.boosts| {
    } else {
      var here, rest := TasksOf(c, i), AllTasksFrom(c, i + 1);
      TaskAtMostOnce(c, i + 1, t);
      TasksOfDistinct(c, i);
      AtMostOnce(here, t);
      if t in here && t in rest {
        TasksFromLaterBoosts(c, i + 1, t);
      }
      OnceInParts(here, rest, t);
    }
  }

  lemma TasksOfHas(c: Config, i: nat, t: Task)
    requires c.Valid() && i < |c.boosts|
    ensures t in TasksOf(c, i) <==> t.boost == c.boosts[i] && t.pod in c.reported[i]
  {
    if t.boost == c.boosts[i] && t.pod in c.reported[i] {
      var j :| 0 <= j < |c.reported[i]| && c.reported[i][j] == t.pod;
      assert TasksOf(c, i)[j] == t;
    }
  }

  /** The configuration with one more boost. */
  ghost function WithBoost(c: Config, b: BoostId, pods: seq<PodId>): Config
  {
    c.(boosts := c.boosts + [b], reported := c.reported + [pods])
  }

  lemma ReportsDistinctMore(c: Config, b: BoostId, pods: seq<PodId>)
    requires c.Valid() && ReportsDistinct(c) && b !in c.boosts && NoDuplicates(pods)
    ensures ReportsDistinct(WithBoost(c, b, pods))
  {
  }

  /** One more boost adds its tasks at the end. */
  lemma {:induction false} AllTasksMore(c: Config, b: BoostId, pods: seq<PodId>, i: nat)
    requires c.Valid() && i <= |c.boosts|
    ensures AllTasksFrom(WithBoost(c, b, pods), i) == AllTasksFrom(c, i) + TasksOf(WithBoost(c, b, pods), |c.boosts|)
    decreases |c.boosts| - i
  {
    var c' := WithBoost(c, b, pods);
    if i == |c.boosts| {
      assert AllTasksFrom(c', i) == TasksOf(c', i) + AllTasksFrom(c', i + 1);
    } else {
      AllTasksMore(c, b, pods, i + 1);
      assert TasksOf(c', i) == TasksOf(c, i);
    }
  }

  /** Each pair of a boost and a pod that was reported has had one attempt, and no other pair has had any. */
  lemma OneAttemptEach(c: Config, handlers: seq<Handler>, run: seq<Action>, t: Task)
    requires c.Valid() && ReportsDistinct(c) && Fresh(handlers) && IsRun(c, Initial(c, handlers), run)
    requires After(c, Initial(c, handlers), run).ticker.Returned?
    ensures Occurrences(Attempted(After(c, Initial(c, handlers), run).attempts), t) == if t in AllTasks(c) then 1 else 0
  {
    TickResult(c, handlers, run);
    TaskAtMostOnce(c, 0, t);
  }

  /** No process ever sends on a closed channel or closes one twice. */
  lemma NeverPanics(c: Config, handlers: seq<Handler>, run: seq<Action>)
    requires c.Valid() && Fresh(handlers) && IsRun(c, Initial(c, handlers), run)
    ensures !After(c, Initial(c, handlers), run).panicked
  {
    InvRun(c, handlers, run);
  }
}
