/**
 Locking: handlers keep their module's lock while they resume the engine, which may lock further modules and
 the client pool.  Over an acyclic link graph the locks follow the order (context generation, graph rank).
 */
module LockOrder {
  import opened ModStates
  import opened TokenEngine

  datatype Lock<+N> = ModuleLock(generation: nat, node: N) | PoolLock

  /** A thread inside a handler: the locks it holds, innermost last, the one it waits for, and the module it runs. */
  datatype Thread<+N> = Thread(held: seq<Lock<N>>, wants: Option<Lock<N>>, generation: nat, node: N)

  type Threads<!N> = map<nat, Thread<N>>

  /** What thread `t` does next.  `locks` says whether the module entered takes its lock. */
  datatype Action =
    | Acquire(t: nat)
    | Release(t: nat)
    | UsePool(t: nat)
    | Advance(t: nat, state: ModState, locks: bool)
    | Restart(t: nat)
    | Return(t: nat)

  datatype Step<+N> = Begin(t: nat, generation: nat, node: N, locks: bool) | Go(a: Action)

  /** The links lead down the graph, except that ending a request starts a new context. */
  ghost predicate Acyclic<N(!new)>(g: Graph<N>) {
    forall n: N, st: ModState | n != g.end && g.next(n, st).Some? :: g.rank(g.next(n, st).value) < g.rank(n)
  }

  ghost predicate Free<N>(threads: Threads<N>, l: Lock<N>) {
    forall u | u in threads :: l !in threads[u].held
  }

  ghost predicate Enabled<N>(g: Graph<N>, threads: Threads<N>, step: Step<N>) {
    match step
    case Begin(t, _, _, _) => t !in threads
    case Go(a) =>
      a.t in threads &&
      var me := threads[a.t];
      match a
      case Acquire(_) => me.wants.Some? && Free(threads, me.wants.value)
      case Release(_) => me.wants.None? && me.held != []
      case UsePool(_) => me.wants.None? && PoolLock !in me.held
      case Advance(_, st, _) => me.wants.None? && PoolLock !in me.held && me.node != g.end && g.next(me.node, st).Some?
      case Restart(_) => me.wants.None? && PoolLock !in me.held && me.node == g.end
      case Return(_) => me.wants.None? && me.held == []
  }

  ghost function Apply<N>(g: Graph<N>, threads: Threads<N>, step: Step<N>): Threads<N>
    requires Enabled(g, threads, step)
  {
    match step
    case Begin(t, gen, n, locks) =>
      threads[t := Thread([], if locks then Some(ModuleLock(gen, n)) else None, gen, n)]
    case Go(a) =>
      var me := threads[a.t];
      match a
      case Acquire(t) => threads[t := me.(held := me.held + [me.wants.value], wants := None)]
      case Release(t) => threads[t := me.(held := me.held[..|me.held| - 1])]
      case UsePool(t) => threads[t := me.(wants := Some(PoolLock))]
      case Advance(t, st, locks) =>
        var m := g.next(me.node, st).value;
        threads[t := me.(node := m, wants := if locks then Some(ModuleLock(me.generation, m)) else None)]
      case Restart(t) => threads[t := me.(generation := me.generation + 1, node := g.start)]
      case Return(t) => threads - {t}
  }

  ghost predicate Schedule<N>(g: Graph<N>, steps: seq<Step<N>>)
    decreases |steps|, 0
  {
    steps == [] || (
      && Schedule(g, steps[..|steps| - 1])
      && Enabled(g, Exec(g, steps[..|steps| - 1]), steps[|steps| - 1]))
  }

  ghost function Exec<N>(g: Graph<N>, steps: seq<Step<N>>): Threads<N>
    requires Schedule(g, steps)
    decreases |steps|, 1
  {
    if steps == [] then map[] else Apply(g, Exec(g, steps[..|steps| - 1]), steps[|steps| - 1])
  }

  // ---------------------------------------------------------------------------------------------
  // The order
  // ---------------------------------------------------------------------------------------------

  /** Older contexts first, then down the graph; the pool's lock comes last. */
  ghost predicate Before<N>(g: Graph<N>, a: Lock<N>, b: Lock<N>) {
    match (a, b)
    case (ModuleLock(i, n), ModuleLock(k, m)) => i < k || (i == k && g.rank(n) > g.rank(m))
    case (ModuleLock(_, _), PoolLock) => true
    case (PoolLock, _) => false
  }

  /** A held lock belongs to a module the thread has come through, or to the pool. */
  ghost predicate Passed<N>(g: Graph<N>, l: Lock<N>, gen: nat, n: N) {
    l.PoolLock? || l.generation < gen || (l.generation == gen && g.rank(l.node) >= g.rank(n))
  }

  ghost predicate ThreadOk<N>(g: Graph<N>, me: Thread<N>) {
    && (forall l | l in me.held :: Passed(g, l, me.generation, me.node))
    && (me.wants.Some? ==> Passed(g, me.wants.value, me.generation, me.node))
    && (me.wants.Some? ==> forall l | l in me.held :: Before(g, l, me.wants.value))
  }

  ghost predicate Exclusive<N>(threads: Threads<N>) {
    forall t, u, l | t in threads && u in threads && l in threads[t].held && l in threads[u].held :: t == u
  }

  ghost predicate Inv<N>(g: Graph<N>, threads: Threads<N>) {
    (forall t | t in threads :: ThreadOk(g, threads[t])) && Exclusive(threads)
  }

  lemma GoKeepsThread<N(!new)>(g: Graph<N>, threads: Threads<N>, a: Action, threads': Threads<N>)
    requires Acyclic(g) && Inv(g, threads) && Enabled(g, threads, Go(a)) && threads' == Apply(g, threads, Go(a))
    ensures a.t in threads' ==> ThreadOk(g, threads'[a.t])
  {
    var me := threads[a.t];
    assert ThreadOk(g, me);
    match a
    case Release(t) => assert forall l | l in threads'[t].held :: l in me.held;
    case _ =>
  }

  lemma StepKeepsInv<N(!new)>(g: Graph<N>, threads: Threads<N>, step: Step<N>, threads': Threads<N>)
    requires Acyclic(g) && Inv(g, threads) && Enabled(g, threads, step) && threads' == Apply(g, threads, step)
    ensures Inv(g, threads')
  {
    match step
    case Begin(_, _, _, _) =>
    case Go(a) =>
      GoKeepsThread(g, threads, a, threads');
      assert a.t in threads' ==> forall l | l in threads'[a.t].held ::
          l in threads[a.t].held || (a.Acquire? && Some(l) == threads[a.t].wants);
  }

  lemma {:induction false} ReachableInv<N(!new)>(g: Graph<N>, steps: seq<Step<N>>)
    requires Acyclic(g) && Schedule(g, steps)
    ensures Inv(g, Exec(g, steps))
    decreases |steps|
  {
    if steps != [] {
      var last := |steps| - 1;
      ReachableInv(g, steps[..last]);
      StepKeepsInv(g, Exec(g, steps[..last]), steps[last], Exec(g, steps));
    }
  }

  // ---------------------------------------------------------------------------------------------
  // Results
  // ---------------------------------------------------------------------------------------------

  /** No thread waits for a lock it holds. */
  lemma NeverRelocks<N(!new)>(g: Graph<N>, steps: seq<Step<N>>, t: nat)
    requires Acyclic(g) && Schedule(g, steps) && t in Exec(g, steps) && Exec(g, steps)[t].wants.Some?
    ensures Exec(g, steps)[t].wants.value !in Exec(g, steps)[t].held
  {
    ReachableInv(g, steps);
    assert ThreadOk(g, Exec(g, steps)[t]);
  }

  /** Thread `t` waits for a lock that thread `u` holds. */
  ghost predicate WaitsFor<N>(threads: Threads<N>, t: nat, u: nat) {
    t in threads && u in threads && threads[t].wants.Some? && threads[t].wants.value in threads[u].held
  }

  lemma {:induction false} WaitsRise<N(!new)>(g: Graph<N>, threads: Threads<N>, ts: seq<nat>, i: nat)
    requires Inv(g, threads) && 0 < i < |ts|
    requires forall k | 0 <= k < |ts| :: ts[k] in threads && threads[ts[k]].wants.Some?
    requires forall k | 0 < k < |ts| :: WaitsFor(threads, ts[k - 1], ts[k])
    ensures Before(g, threads[ts[0]].wants.value, threads[ts[i]].wants.value)
  {
    assert WaitsFor(threads, ts[i - 1], ts[i]) && ThreadOk(g, threads[ts[i]]);
    if i > 1 {
      WaitsRise(g, threads, ts, i - 1);
    }
  }

  /** No chain of threads, each waiting for a lock of the next, closes. */
  lemma NoCircularWait<N(!new)>(g: Graph<N>, steps: seq<Step<N>>, ts: seq<nat>)
    requires Acyclic(g) && Schedule(g, steps) && ts != []
    requires forall k | 0 < k < |ts| :: WaitsFor(Exec(g, steps), ts[k - 1], ts[k])
    ensures !WaitsFor(Exec(g, steps), ts[|ts| - 1], ts[0])
  {
    ReachableInv(g, steps);
    var threads, last := Exec(g, steps), |ts| - 1;
    if WaitsFor(threads, ts[last], ts[0]) {
      forall k | 0 <= k < |ts| ensures ts[k] in threads && threads[ts[k]].wants.Some? {
        assert k < last ==> WaitsFor(threads, ts[k + 1 - 1], ts[k + 1]);
      }
      assert ThreadOk(g, threads[ts[0]]);
      if last > 0 {
        WaitsRise(g, threads, ts, last);
      }
    }
  }

  /** Thread `t` is not blocked. */
  ghost predicate CanGo<N>(threads: Threads<N>, t: nat) {
    t in threads && (threads[t].wants.Some? ==> Free(threads, threads[t].wants.value))
  }

  lemma {:induction false} FollowWaits<N(!new)>(g: Graph<N>, threads: Threads<N>, t: nat, later: set<nat>)
      returns (u: nat)
    requires Inv(g, threads) && t in threads && threads[t].wants.Some?
    requires forall v | v in threads && threads[v].wants.Some?
        && Before(g, threads[t].wants.value, threads[v].wants.value) :: v in later
    ensures CanGo(threads, u)
    decreases |later|
  {
    var l := threads[t].wants.value;
    if Free(threads, l) {
      u := t;
    } else {
      u :| u in threads && l in threads[u].held;
      assert ThreadOk(g, threads[u]);
      if threads[u].wants.Some? {
        u := FollowWaits(g, threads, u, later - {u});
      }
    }
  }

  /** No deadlock: as long as there are threads in handlers, one of them can go on. */
  lemma SomeThreadCanGoOn<N(!new)>(g: Graph<N>, steps: seq<Step<N>>)
    requires Acyclic(g) && Schedule(g, steps) && Exec(g, steps) != map[]
    ensures exists a: Action :: (a.Acquire? || a.Release? || a.Return?) && Enabled(g, Exec(g, steps), Go(a))
  {
    ReachableInv(g, steps);
    var threads := Exec(g, steps);
    assert threads.Keys != {} by { assert threads.Keys == {} ==> threads == map[]; }
    var t :| t in threads.Keys;
    var u := t;
    if threads[t].wants.Some? {
      u := FollowWaits(g, threads, t, threads.Keys);
    }
    var a := if threads[u].wants.Some? then Acquire(u) else if threads[u].held != [] then Release(u) else Return(u);
    assert Enabled(g, threads, Go(a));
  }
}
