/**
 The API server. What will happen is fixed in advance but arbitrary: before every call
 users may change the cluster, and the call may fail, with or without effect. The clock
 counts the calls, and the log keeps the writes that were requested.
 */
module ClusterApi {
  import opened Wrappers
  import opened Selectors
  import opened NamespacedObjects
  import opened Cluster

  /**
   What happens around one call: the cluster as users leave it before the call, whether
   the call reports a failure, whether it takes effect nevertheless, and whether
   something else holds a global boost whose finalizer is removed.
   */
  datatype Turn = Turn(users: Option<State>, fails: bool, applied: bool, held: bool)

  type Script = nat -> Turn

  /** Users can only do what `UserMay` allows; anything else does not happen. */
  function UsersTurn(t: Turn, s: State): State
  {
    if t.users.Some? && UserMay(s, t.users.value) then t.users.value else s
  }

  /** In how many of the first `n` turns users act. */
  ghost function Meddled(script: Script, n: nat): nat
  {
    if n == 0 then 0 else Meddled(script, n - 1) + (if script(n - 1).users.Some? then 1 else 0)
  }

  /** How many of the first `n` calls report a failure. */
  ghost function Faulted(script: Script, n: nat): nat
  {
    if n == 0 then 0 else Faulted(script, n - 1) + (if script(n - 1).fails then 1 else 0)
  }

  /** Users do nothing from time `m` on before `n`. */
  ghost predicate Calm(script: Script, m: nat, n: nat)
  {
    Meddled(script, m) == Meddled(script, n)
  }

  ghost predicate Faultless(script: Script, m: nat, n: nat)
  {
    Faulted(script, m) == Faulted(script, n)
  }

  lemma {:induction false} CountsGrow(script: Script, m: nat, n: nat)
    requires m <= n
    ensures Meddled(script, m) <= Meddled(script, n) && Faulted(script, m) <= Faulted(script, n)
  {
    if m == n {
    } else {
      CountsGrow(script, m, n - 1);
    }
  }

  /** A turn in which users leave an unlabelled boost under the key. */
  ghost predicate Swaps(t: Turn, k: Key)
  {
    t.users.Some? && k in t.users.value.boosts && t.users.value.boosts[k].managedBy.None?
  }

  /** Users left an unlabelled boost under the key in one of the turns from `m` on before `n`. */
  ghost predicate Swapped(script: Script, m: nat, n: nat, k: Key)
  {
    exists i :: m <= i < n && Swaps(script(i), k)
  }

  /** What is done to a global boost. */
  datatype Action = PutFinalizer | TakeFinalizer | PutStatus(status: Status)

  /** A write that was requested, and when; for a deletion also what was read before, and when, and what was found. */
  datatype Write =
    | Create(key: Key, boost: Boost, at: nat)
    | Update(key: Key, read: Boost, boost: Boost, at: nat)
    | Delete(key: Key, read: Boost, found: Option<Boost>, readAt: nat, at: nat)
    | Global(name: string, global: GlobalBoost, action: Action, at: nat)

  datatype Fetched<T> = Found(value: T) | Missing | Unavailable

  datatype Written = Applied | NotFound | Conflict | Rejected

  function At(s: State, k: Key): Option<Boost>
  {
    if k in s.boosts then Some(s.boosts[k]) else None
  }

  // ---------------------------------------------------------------------------
  // Replay: the state is what the users' turns and the logged writes make of the first one
  // ---------------------------------------------------------------------------

  /** What the server makes of a write. A write that is reported as failed may take effect. */
  function Effect(t: Turn, s: State, w: Write): State
  {
    if t.fails && !t.applied then s
    else
      match w
      case Create(k, b, _) => if k in s.boosts then s else s.(boosts := s.boosts[k := b])
      case Update(k, read, b, _) => if At(s, k) == Some(read) then s.(boosts := s.boosts[k := b]) else s
      case Delete(k, _, _, _, _) => s.(boosts := s.boosts - {k})
      case Global(g, read, action, _) =>
        if g !in s.globals || s.globals[g] != read then s
        else
          match action
          case PutFinalizer => s.(globals := s.globals[g := read.(finalizer := true)])
          case TakeFinalizer =>
            s.(globals := if t.held then s.globals[g := read.(finalizer := false)] else s.globals - {g})
          case PutStatus(status) => s.(globals := s.globals[g := read.(status := status)])
  }

  /** The write of the call that ended at that time, if it was one. */
  function WriteAt(log: seq<Write>, time: nat): Option<Write>
  {
    if log == [] then None
    else if log[|log| - 1].at == time then Some(log[|log| - 1])
    else WriteAt(log[..|log| - 1], time)
  }

  /** The state after `n` turns. */
  ghost function Replay(script: Script, log: seq<Write>, start: State, n: nat): State
  {
    if n == 0 then start
    else
      var found := UsersTurn(script(n - 1), Replay(script, log, start, n - 1));
      match WriteAt(log, n)
      case None => found
      case Some(w) => Effect(script(n - 1), found, w)
  }

  ghost predicate TimedAt(log: seq<Write>, n: nat, w: Write)
  {
    w in log ==> w.at <= n
  }

  ghost predicate ReplayedAt(script: Script, log: seq<Write>, start: State, n: nat, s: State, time: nat)
  {
    time == n ==> s == Replay(script, log, start, time)
  }

  /** The log reaches up to time `n`, and the state at that time is its replay. */
  ghost predicate Replayed(script: Script, log: seq<Write>, start: State, n: nat, s: State)
  {
    && (forall w {:trigger TimedAt(log, n, w)} :: TimedAt(log, n, w))
    && (forall time {:trigger ReplayedAt(script, log, start, n, s, time)} :: ReplayedAt(script, log, start, n, s, time))
  }

  lemma {:induction false} NoWriteAt(log: seq<Write>, n: nat, time: nat)
    requires (forall w {:trigger TimedAt(log, n, w)} :: TimedAt(log, n, w)) && time > n
    ensures WriteAt(log, time).None?
  {
    if log == [] {
    } else {
      assert TimedAt(log, n, log[|log| - 1]);
      var init := log[..|log| - 1];
      forall w
        ensures TimedAt(init, n, w)
      {
        assert TimedAt(log, n, w);
      }
      NoWriteAt(init, n, time);
    }
  }

  lemma {:induction false} ReplayIgnoresLater(script: Script, log: seq<Write>, w: Write, start: State, n: nat)
    requires w.at > n
    ensures Replay(script, log + [w], start, n) == Replay(script, log, start, n)
  {
    if n == 0 {
    } else {
      ReplayIgnoresLater(script, log, w, start, n - 1);
      assert (log + [w])[..|log|] == log;
    }
  }

  lemma TurnReplayed(script: Script, log: seq<Write>, start: State, n: nat, s: State)
    requires Replayed(script, log, start, n, s)
    ensures Replayed(script, log, start, n + 1, UsersTurn(script(n), s))
  {
    assert ReplayedAt(script, log, start, n, s, n);
    NoWriteAt(log, n, n + 1);
    var n', s' := n + 1, UsersTurn(script(n), s);
    forall w
      ensures TimedAt(log, n', w)
    {
      assert TimedAt(log, n, w);
    }
    forall time: nat
      ensures ReplayedAt(script, log, start, n', s', time)
    {
    }
  }

  lemma WriteReplayed(script: Script, log: seq<Write>, start: State, n: nat, s: State, w: Write)
    requires Replayed(script, log, start, n, s) && w.at == n + 1
    ensures Replayed(script, log + [w], start, n + 1, Effect(script(n), UsersTurn(script(n), s), w))
  {
    assert ReplayedAt(script, log, start, n, s, n);
    ReplayIgnoresLater(script, log, w, start, n);
    var log', n', s' := log + [w], n + 1, Effect(script(n), UsersTurn(script(n), s), w);
    forall v
      ensures TimedAt(log', n', v)
    {
      assert TimedAt(log, n, v);
    }
    forall time: nat
      ensures ReplayedAt(script, log', start, n', s', time)
    {
    }
  }

  class ApiServer {
    const script: Script

    /** The state at the beginning. */
    ghost const start: State

    var namespaces: map<string, Namespace>
    var boosts: map<Key, Boost>
    var globals: map<string, GlobalBoost>

    /** Calls so far. */
    var clock: nat

    /** Turns so far in which users acted, and in which the call failed. */
    ghost var meddling: nat
    ghost var faults: nat

    /** Writes requested so far. */
    ghost var log: seq<Write>

    function Now(): State
      reads this
    {
      State(namespaces, boosts, globals)
    }

    ghost predicate Valid()
      reads this
    {
      && Inv(Now())
      && meddling == Meddled(script, clock) && faults == Faulted(script, clock)
      && Replayed(script, log, start, clock, Now())
    }

    constructor (s: State, script: Script)
      requires Inv(s)
      ensures Valid() && Now() == start == s && this.script == script && clock == 0 && log == []
    {
      this.script, start := script, s;
      namespaces, boosts, globals := s.namespaces, s.boosts, s.globals;
      clock, meddling, faults, log := 0, 0, 0, [];
    }

    /** Lets users act and advances the clock. */
    method NextTurn(ghost ns: string, ghost g: string) returns (t: Turn)
      requires Valid()
      modifies `namespaces, `boosts, `globals, `clock, `meddling, `faults
      ensures Valid() && t == script(old(clock)) && clock == old(clock) + 1
      ensures Now() == UsersTurn(t, old(Now())) && UserMay(old(Now()), Now())
      ensures meddling == old(meddling) + (if t.users.Some? then 1 else 0)
      ensures faults == old(faults) + (if t.fails then 1 else 0)
      ensures old(OwnedBy(Now(), ns, g)) ==> OwnedBy(Now(), ns, g)
      ensures old(NoChildren(Now(), g)) ==> NoChildren(Now(), g)
      ensures old(HasFinalizer(Now(), g)) ==> HasFinalizer(Now(), g)
    {
      t := script(clock);
      var s := UsersTurn(t, Now());
      UserKeepsInv(Now(), s);
      UserKeepsFacts(Now(), s, ns, g);
      TurnReplayed(script, log, start, clock, Now());
      namespaces, boosts, globals, clock := s.namespaces, s.boosts, s.globals, clock + 1;
      meddling := meddling + (if t.users.Some? then 1 else 0);
      faults := faults + (if t.fails then 1 else 0);
    }

    method GetGlobal(g: string) returns (r: Fetched<GlobalBoost>)
      requires Valid()
      modifies `namespaces, `boosts, `globals, `clock, `meddling, `faults
      ensures Valid() && clock == old(clock) + 1
      ensures Now() == UsersTurn(script(old(clock)), old(Now())) && UserMay(old(Now()), Now())
      ensures meddling >= old(meddling) && (meddling == old(meddling) ==> Now() == old(Now()))
      ensures faults == old(faults) + (if r.Unavailable? then 1 else 0)
      ensures r.Found? ==> g in globals && globals[g] == r.value
      ensures r.Missing? ==> g !in globals
    {
      var t := NextTurn("", g);
      if t.fails {
        return Unavailable;
      }
      return if g in globals then Found(globals[g]) else Missing;
    }

    method GetBoost(k: Key) returns (r: Fetched<Boost>)
      requires Valid()
      modifies `namespaces, `boosts, `globals, `clock, `meddling, `faults
      ensures Valid() && clock == old(clock) + 1
      ensures Now() == UsersTurn(script(old(clock)), old(Now())) && UserMay(old(Now()), Now())
      ensures meddling >= old(meddling) && (meddling == old(meddling) ==> Now() == old(Now()))
      ensures faults == old(faults) + (if r.Unavailable? then 1 else 0)
      ensures r.Unavailable? <==> script(old(clock)).fails
      ensures r.Found? ==> k in boosts && boosts[k] == r.value
      ensures r.Missing? ==> k !in boosts
    {
      var t := NextTurn("", "");
      if t.fails {
        return Unavailable;
      }
      return if k in boosts then Found(boosts[k]) else Missing;
    }

    /** The namespaces whose labels match the selector, with their state of termination. */
    method ListNamespaces(selector: Selector) returns (r: Option<map<string, Namespace>>)
      requires Valid()
      modifies `namespaces, `boosts, `globals, `clock, `meddling, `faults
      ensures Valid() && clock == old(clock) + 1
      ensures Now() == UsersTurn(script(old(clock)), old(Now())) && UserMay(old(Now()), Now())
      ensures meddling >= old(meddling) && (meddling == old(meddling) ==> Now() == old(Now()))
      ensures faults == old(faults) + (if r.None? then 1 else 0)
      ensures r.Some? ==> forall ns :: ns in r.value <==> ns in namespaces && Matches(selector, namespaces[ns].labels)
      ensures r.Some? ==> forall ns :: ns in r.value ==> r.value[ns] == namespaces[ns]
    {
      var t := NextTurn("", "");
      if t.fails {
        return None;
      }
      return Some(namespaces - set ns | ns in namespaces && !Matches(selector, namespaces[ns].labels));
    }

    /** The boosts of one namespace. */
    method ListBoosts(namespace: string) returns (r: Option<map<Key, Boost>>)
      requires Valid()
      modifies `namespaces, `boosts, `globals, `clock, `meddling, `faults
      ensures Valid() && clock == old(clock) + 1
      ensures Now() == UsersTurn(script(old(clock)), old(Now())) && UserMay(old(Now()), Now())
      ensures meddling >= old(meddling) && (meddling == old(meddling) ==> Now() == old(Now()))
      ensures faults == old(faults) + (if r.None? then 1 else 0)
      ensures r.None? <==> script(old(clock)).fails
      ensures r.Some? ==> forall k :: k in r.value <==> k in boosts && k.namespace == namespace
      ensures r.Some? ==> forall k :: k in r.value ==> r.value[k] == boosts[k]
    {
      var t := NextTurn("", "");
      if t.fails {
        return None;
      }
      return Some(boosts - set k | k in boosts && k.namespace != namespace);
    }

    /** The boosts that are labelled with the global boost, in all namespaces. */
    method ListManaged(g: string) returns (r: Option<map<Key, Boost>>)
      requires Valid()
      modifies `namespaces, `boosts, `globals, `clock, `meddling, `faults
      ensures Valid() && clock == old(clock) + 1
      ensures Now() == UsersTurn(script(old(clock)), old(Now())) && UserMay(old(Now()), Now())
      ensures meddling >= old(meddling) && (meddling == old(meddling) ==> Now() == old(Now()))
      ensures faults == old(faults) + (if r.None? then 1 else 0)
      ensures r.Some? ==> forall k :: k in r.value <==> ManagedBy(Now(), k, g)
      ensures r.Some? ==> forall k :: k in r.value ==> r.value[k] == boosts[k]
    {
      var t := NextTurn("", "");
      if t.fails {
        return None;
      }
      return Some(boosts - set k | k in boosts && boosts[k].managedBy != Some(g));
    }

    /** Creates a child, unless the name is taken; `found` is the state the server applied the call to. */
    method CreateBoost(k: Key, b: Boost, ghost g: string) returns (ok: bool, ghost found: State)
      requires Valid() && b.managedBy == Some(g) && k.name == ChildName(g)
      requires HasFinalizer(Now(), g) && OwnedBy(Now(), k.namespace, g)
      modifies this
      ensures Valid() && clock == old(clock) + 1 && log == old(log) + [Create(k, b, clock)]
      ensures found == UsersTurn(script(old(clock)), old(Now())) && UserMay(old(Now()), found)
      ensures meddling >= old(meddling) && (meddling == old(meddling) ==> found == old(Now()))
      ensures faults == old(faults) + (if script(old(clock)).fails then 1 else 0)
      ensures ok <==> !script(old(clock)).fails && k !in found.boosts
      ensures ok ==> Now() == found.(boosts := found.boosts[k := b])
      ensures !ok ==> Now() == found || (k !in found.boosts && Now() == found.(boosts := found.boosts[k := b]))
    {
      var t := NextTurn(k.namespace, g);
      found := Now();
      log := log + [Create(k, b, clock)];
      WriteReplayed(script, old(log), start, old(clock), old(Now()), Create(k, b, clock));
      ok := !t.fails && k !in boosts;
      if k !in boosts && (ok || t.applied) {
        CreateKeepsInv(Now(), k, b, g);
        boosts := boosts[k := b];
      }
    }

    /** Replaces a boost if it is still the one that was read. */
    method UpdateBoost(k: Key, read: Boost, b: Boost) returns (ok: bool, ghost found: State)
      requires Valid() && b.managedBy == read.managedBy
      modifies this
      ensures Valid() && clock == old(clock) + 1 && log == old(log) + [Update(k, read, b, clock)]
      ensures found == UsersTurn(script(old(clock)), old(Now())) && UserMay(old(Now()), found)
      ensures meddling >= old(meddling) && (meddling == old(meddling) ==> found == old(Now()))
      ensures faults == old(faults) + (if script(old(clock)).fails then 1 else 0)
      ensures ok <==> !script(old(clock)).fails && At(found, k) == Some(read)
      ensures ok ==> Now() == found.(boosts := found.boosts[k := b])
      ensures !ok ==> Now() == found || (At(found, k) == Some(read) && Now() == found.(boosts := found.boosts[k := b]))
    {
      var t := NextTurn("", "");
      found := Now();
      log := log + [Update(k, read, b, clock)];
      WriteReplayed(script, old(log), start, old(clock), old(Now()), Update(k, read, b, clock));
      ok := !t.fails && At(Now(), k) == Some(read);
      if At(Now(), k) == Some(read) && (ok || t.applied) {
        UpdateKeepsInv(Now(), k, b);
        boosts := boosts[k := b];
      }
    }

    /** Deletes by name, whatever is there; a boost that is gone already counts as deleted. */
    method DeleteBoost(k: Key, ghost read: Boost, ghost readAt: nat) returns (ok: bool, ghost found: State)
      requires Valid()
      modifies this
      ensures Valid() && clock == old(clock) + 1
      ensures log == old(log) + [Delete(k, read, At(found, k), readAt, clock)]
      ensures found == UsersTurn(script(old(clock)), old(Now())) && UserMay(old(Now()), found)
      ensures meddling >= old(meddling) && (meddling == old(meddling) ==> found == old(Now()))
      ensures faults == old(faults) + (if ok then 0 else 1) && (ok <==> !script(old(clock)).fails)
      ensures Now() == (if ok || script(old(clock)).applied then found.(boosts := found.boosts - {k}) else found)
    {
      var t := NextTurn("", "");
      found := Now();
      log := log + [Delete(k, read, At(found, k), readAt, clock)];
      WriteReplayed(script, old(log), start, old(clock), old(Now()), Delete(k, read, At(found, k), readAt, clock));
      ok := !t.fails;
      if ok || t.applied {
        DeleteKeepsInv(Now(), k);
        boosts := boosts - {k};
      }
    }

    /** Puts the finalizer on, if the global boost is still the one that was read. */
    method AddFinalizer(g: string, read: GlobalBoost) returns (ok: bool, ghost found: State)
      requires Valid()
      modifies this
      ensures Valid() && clock == old(clock) + 1 && log == old(log) + [Global(g, read, PutFinalizer, clock)]
      ensures UserMay(old(Now()), found)
      ensures meddling >= old(meddling) && (meddling == old(meddling) ==> found == old(Now()))
      ensures faults == old(faults) + (if script(old(clock)).fails then 1 else 0)
      ensures ok <==> !script(old(clock)).fails && g in found.globals && found.globals[g] == read
      ensures ok ==> Now() == found.(globals := found.globals[g := read.(finalizer := true)])
      ensures !ok ==> Now() == found || Now() == found.(globals := found.globals[g := read.(finalizer := true)])
    {
      var t := NextTurn("", g);
      found := Now();
      log := log + [Global(g, read, PutFinalizer, clock)];
      WriteReplayed(script, old(log), start, old(clock), old(Now()), Global(g, read, PutFinalizer, clock));
      ok := !t.fails && g in globals && globals[g] == read;
      if g in globals && globals[g] == read && (ok || t.applied) {
        var after := globals[g := read.(finalizer := true)];
        GlobalKeepsInv(Now(), g, Now().(globals := after));
        globals := after;
      }
    }

    /**
     Takes the finalizer off a global boost that is being deleted, which is allowed only
     in a state without children; the global boost goes away unless something else holds it.
     */
    method RemoveFinalizer(g: string, read: GlobalBoost) returns (ok: bool, ghost found: State)
      requires Valid() && NoChildren(Now(), g)
      modifies this
      ensures Valid() && clock == old(clock) + 1 && log == old(log) + [Global(g, read, TakeFinalizer, clock)]
      ensures UserMay(old(Now()), found) && NoChildren(found, g)
      ensures meddling >= old(meddling) && (meddling == old(meddling) ==> found == old(Now()))
      ensures faults == old(faults) + (if script(old(clock)).fails then 1 else 0)
      ensures ok <==> !script(old(clock)).fails && g in found.globals && found.globals[g] == read
      ensures namespaces == found.namespaces && boosts == found.boosts && globals - {g} == found.globals - {g}
      ensures ok ==> g !in globals || !globals[g].finalizer
    {
      var t := NextTurn("", g);
      found := Now();
      log := log + [Global(g, read, TakeFinalizer, clock)];
      WriteReplayed(script, old(log), start, old(clock), old(Now()), Global(g, read, TakeFinalizer, clock));
      ok := !t.fails && g in globals && globals[g] == read;
      if g in globals && globals[g] == read && (ok || t.applied) {
        var after := if t.held then globals[g := read.(finalizer := false)] else globals - {g};
        assert after - {g} == globals - {g};
        GlobalKeepsInv(Now(), g, Now().(globals := after));
        globals := after;
      }
    }

    /** Writes the status, if the global boost is still the one that was read. */
    method UpdateStatus(g: string, read: GlobalBoost, status: Status) returns (r: Written, ghost found: State)
      requires Valid()
      modifies this
      ensures Valid() && clock == old(clock) + 1 && log == old(log) + [Global(g, read, PutStatus(status), clock)]
      ensures found == UsersTurn(script(old(clock)), old(Now())) && UserMay(old(Now()), found)
      ensures meddling >= old(meddling) && (meddling == old(meddling) ==> found == old(Now()))
      ensures faults == old(faults) + (if r.Rejected? then 1 else 0)
      ensures r == if script(old(clock)).fails then Rejected
                   else if g !in found.globals then NotFound
                   else if found.globals[g] != read then Conflict
                   else Applied
      ensures r.Applied? ==> Now() == found.(globals := found.globals[g := read.(status := status)])
      ensures !r.Applied? ==>
                Now() == found || (g in found.globals && found.globals[g] == read &&
                Now() == found.(globals := found.globals[g := read.(status := status)]))
    {
      var t := NextTurn("", g);
      found := Now();
      log := log + [Global(g, read, PutStatus(status), clock)];
      WriteReplayed(script, old(log), start, old(clock), old(Now()), Global(g, read, PutStatus(status), clock));
      r := if t.fails then Rejected
           else if g !in globals then NotFound
           else if globals[g] != read then Conflict
           else Applied;
      if g in globals && globals[g] == read && (r.Applied? || t.applied) {
        var after := globals[g := read.(status := status)];
        GlobalKeepsInv(Now(), g, Now().(globals := after));
        globals := after;
      }
    }
  }
}
