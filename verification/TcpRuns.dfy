/** Any number of backend module runs sharing one client pool, under every interleaving of their handlers. */
module TcpRuns {
  import opened ModStates
  import opened ClientPool
  import opened TcpModule

  type RunId = nat

  /** What has travelled over a connection: requests fully written, reply heads and bodies fully read. */
  datatype Wire = Wire(requests: nat, heads: nat, bodies: nat)

  datatype Sys = Sys(pool: Pool, runs: map<RunId, Run>, wire: map<ClientId, Wire>)

  function Traffic(s: Sys, c: ClientId): Wire {
    if c in s.wire then s.wire[c] else Wire(0, 0, 0)
  }

  /** Every handler is one step, because it holds its run's lock; only the body handler is split in two,
      after the client is back in the pool (`Socket`) and before the run forgets it (`Finish`).
      A timer handler may be called at any time, with or without an error. */
  datatype Action =
    | Start(r: RunId, peer: int, broken: set<ClientId>, fate: Fate, c: ClientId, now: int)
    | Socket(r: RunId, result: SocketResult, hookOk: bool, cancelOk: bool, now: int)
    | Finish(r: RunId, hookOk: bool)
    | Timer(r: RunId, kind: TimerKind, late: TimerResult)
    | SweepPool(now: int, broken: set<ClientId>)

  datatype Limits = Limits(maxTimes: int, checkTime: int)

  ghost predicate Enabled(s: Sys, a: Action) {
    && Stocked(s.pool)
    && match a
       case Start(r, _, _, _, c, _) => r !in s.runs && c !in s.pool.clients
       case Socket(r, result, _, _, _) =>
         && r in s.runs && !s.runs[r].window && s.runs[r].op.Some?
         && s.runs[r].op.value.client in s.pool.clients
         && (result == Aborted ==> s.runs[r].op.value.cancelled)
       case Finish(r, _) => r in s.runs && s.runs[r].window
       case Timer(r, kind, _) => r in s.runs && !s.runs[r].window && TimersLeft(s.runs[r], kind) > 0
       case SweepPool(_, _) => true
  }

  /** Cancelling or closing the sockets in `cs` interrupts whatever operation any run has on them. */
  ghost function Interrupt(runs: map<RunId, Run>, cs: set<ClientId>): map<RunId, Run> {
    map r | r in runs ::
      if runs[r].op.Some? && runs[r].op.value.client in cs
      then runs[r].(op := Some(runs[r].op.value.(cancelled := true))) else runs[r]
  }

  ghost function Closed(p: Pool): set<ClientId> {
    set c | c in p.clients && p.clients[c].closed
  }

  /** The pool changes, and the clients closed by that are interrupted. */
  ghost function WithPool(s: Sys, p: Pool): Sys {
    s.(pool := p, runs := Interrupt(s.runs, Closed(p) - Closed(s.pool)))
  }

  function Moved(w: Wire, kind: OpKind): Wire {
    match kind
    case Connect => w
    case Write => w.(requests := w.requests + 1)
    case Head => w.(heads := w.heads + 1)
    case Body => w.(bodies := w.bodies + 1)
  }

  ghost function ApplyStart(s: Sys, a: Action, lim: Limits): Sys
    requires Stocked(s.pool) && a.Start?
  {
    if a.peer == -1 then s.(runs := s.runs[a.r := NoPeer()])
    else
      var (got, left) := Checkout(s.pool, a.peer, a.broken, lim.maxTimes);
      var s := WithPool(s, left);
      if got.Some? then s.(runs := s.runs[a.r := StartPooled(got.value)])
      else
        var clients := if Creates(a.fate) then s.pool.clients[a.c := Client(a.peer, 0, false, a.now)]
            else s.pool.clients;
        s.(runs := s.runs[a.r := StartAnew(a.fate, a.c)], pool := s.pool.(clients := clients))
  }

  ghost function ApplySocket(s: Sys, a: Action): Sys
    requires Enabled(s, a) && a.Socket?
  {
    var run := s.runs[a.r];
    var c := run.op.value.client;
    var pool := if ClosesClient(run, a.result, a.hookOk, a.cancelOk) then s.pool.(clients := Close(s.pool.clients, c))
                else if Recollects(run, a.result, a.cancelOk) then PutBack(s.pool, c, a.now) else s.pool;
    var wire := if a.result == Success then s.wire[c := Moved(Traffic(s, c), run.op.value.kind)] else s.wire;
    WithPool(s.(runs := s.runs[a.r := OnSocket(run, a.result, a.hookOk, a.cancelOk)], wire := wire), pool)
  }

  ghost function ApplyTimer(s: Sys, a: Action): Sys
    requires Enabled(s, a) && a.Timer?
  {
    var run := s.runs[a.r];
    var s := s.(runs := s.runs[a.r := OnTimer(run, a.kind, a.late)]);
    if CancelsSocket(run, a.late) then s.(runs := Interrupt(s.runs, {run.client.value})) else s
  }

  ghost function Apply(s: Sys, a: Action, lim: Limits): Sys
    requires Enabled(s, a)
  {
    match a
    case Start(_, _, _, _, _, _) => ApplyStart(s, a, lim)
    case Socket(_, _, _, _, _) => ApplySocket(s, a)
    case Finish(r, hookOk) => s.(runs := s.runs[r := OnRecollected(s.runs[r], hookOk)])
    case Timer(_, _, _) => ApplyTimer(s, a)
    case SweepPool(now, broken) => WithPool(s, Sweep(s.pool, now, lim.checkTime, broken))
  }

  const INIT := Sys(Pool(map[], map[]), map[], map[])

  ghost predicate Schedule(s: Sys, actions: seq<Action>, lim: Limits)
    decreases |actions|
  {
    actions == [] || (Enabled(s, actions[0]) && Schedule(Apply(s, actions[0], lim), actions[1..], lim))
  }

  ghost function Exec(s: Sys, actions: seq<Action>, lim: Limits): Sys
    requires Schedule(s, actions, lim)
    decreases |actions|
  {
    if actions == [] then s else Exec(Apply(s, actions[0], lim), actions[1..], lim)
  }

  // ---------------------------------------------------------------------------------------------
  // The invariant
  // ---------------------------------------------------------------------------------------------

  ghost predicate QueueOk(queue: seq<ClientId>, clients: Clients, peer: int) {
    Distinct(queue) && forall c | c in queue :: c in clients && clients[c].peer == peer && !clients[c].closed
  }

  ghost predicate PoolOk(p: Pool) {
    Stocked(p) && forall peer | peer in p.queues :: QueueOk(p.queues[peer], p.clients, peer)
  }

  /** How often a run has been, or will be, continued; every run is owed exactly one continuation. */
  function Continuations(run: Run): nat {
    (if run.op.Some? then 1 else 0) + |run.resumed| + run.failed + run.dropped + (if run.window then 1 else 0)
  }

  /** The timer that guards the operation in flight was armed once: its handler is outstanding or has been called. */
  predicate Guarded(run: Run, kind: OpKind) {
    if kind == Connect then run.connectTimers + run.connectCalls == 1 && run.replyTimers == 0 && run.replyCalls == 0
    else run.replyTimers + run.replyCalls == 1
  }

  ghost predicate RunOk(run: Run) {
    && Continuations(run) == 1
    && (run.event == EventOpened <==> run.op.Some?)
    && (run.op.Some? ==> run.client == Some(run.op.value.client))
    && (run.op.Some? && run.op.value.cancelled ==> run.fired)
    && (run.op.Some? ==> Guarded(run, run.op.value.kind))
    && (run.resumed == [MOD_TIMEOUT] ==> run.fired)
    && (run.resumed == [MOD_SUCCEED] ==> run.client.None?)
    && run.strays == 0
  }

  ghost predicate RunsOk(s: Sys) {
    forall r | r in s.runs :: RunOk(s.runs[r])
  }

  /** A run holds a client while it remembers it and has not given it back. */
  predicate Holds(run: Run, c: ClientId) {
    run.client == Some(c) && !run.window
  }

  ghost predicate HeldOk(s: Sys) {
    forall r, c | r in s.runs && Holds(s.runs[r], c) ::
      c in s.pool.clients && c !in PooledIds(s.pool) && (s.runs[r].op.Some? ==> !s.pool.clients[c].closed)
  }

  ghost predicate Exclusive(s: Sys) {
    forall r, q, c | r in s.runs && q in s.runs && Holds(s.runs[r], c) && Holds(s.runs[q], c) :: r == q
  }

  predicate Whole(w: Wire) {
    w.requests == w.heads == w.bodies
  }

  predicate Phase(kind: OpKind, w: Wire) {
    match kind
    case Connect => w == Wire(0, 0, 0)
    case Write => Whole(w)
    case Head => w.requests == w.heads + 1 && w.heads == w.bodies
    case Body => w.requests == w.heads == w.bodies + 1
  }

  ghost predicate WireOk(s: Sys) {
    && s.wire.Keys <= s.pool.clients.Keys
    && (forall c | c in PooledIds(s.pool) :: Whole(Traffic(s, c)))
    && (forall r | r in s.runs && s.runs[r].op.Some? ::
          Phase(s.runs[r].op.value.kind, Traffic(s, s.runs[r].op.value.client)))
  }

  ghost predicate Inv(s: Sys) {
    PoolOk(s.pool) && RunsOk(s) && HeldOk(s) && Exclusive(s) && WireOk(s)
  }

  // ---------------------------------------------------------------------------------------------
  // Pool steps
  // ---------------------------------------------------------------------------------------------

  /** Checkout and sweep take clients out of the pool and close only clients that they take out. */
  ghost predicate Shrinks(p: Pool, p': Pool) {
    && PoolOk(p')
    && p'.clients.Keys == p.clients.Keys
    && PooledIds(p') <= PooledIds(p)
    && (forall c | c in p.clients && c !in PooledIds(p) :: p'.clients[c].closed == p.clients[c].closed)
  }

  lemma CheckoutShrinks(p: Pool, peer: int, broken: set<ClientId>, maxTimes: int, got: Option<ClientId>, p': Pool)
    requires PoolOk(p) && (got, p') == Checkout(p, peer, broken, maxTimes)
    ensures Shrinks(p, p')
    ensures got.Some? ==> var c := got.value;
              c in PooledIds(p) && c !in PooledIds(p') && c in p'.clients && !p'.clients[c].closed
                  && p'.clients[c].peer == peer
  {
    if peer in p.queues {
      var queue := p.queues[peer];
      TakeFindsFirst(queue, p.clients, broken, maxTimes);
      TakeKeepsOpen(queue, p.clients, broken, maxTimes);
      var t := Take(queue, p.clients, broken, maxTimes);
      var n := |queue| - |t.rest|;
      if t.client.None? { assert t.rest == [] == queue[n..]; }
      assert forall i | 0 <= i < |t.rest| :: t.rest[i] == queue[n + i];
      forall c | c in p.clients
        ensures c in p'.clients && p'.clients[c].peer == p.clients[c].peer
        ensures c !in queue ==> p'.clients[c] == p.clients[c]
      {
        TakeEffect(queue, p.clients, broken, maxTimes, c);
      }
      if queue != [] { TakeEffect(queue, p.clients, broken, maxTimes, queue[0]); }
      forall q | q in p'.queues ensures QueueOk(p'.queues[q], p'.clients, q) {
        assert QueueOk(p.queues[q], p.clients, q);
      }
      assert forall q, c | q in p'.queues && c in p'.queues[q] :: c in p.queues[q];
      if got.Some? {
        assert queue[n - 1] == got.value;
        forall q | q in p'.queues ensures got.value !in p'.queues[q] {
          assert QueueOk(p.queues[q], p.clients, q) && QueueOk(queue, p.clients, peer);
        }
      }
    }
  }

  lemma {:induction false} TakeKeepsOpen(queue: seq<ClientId>, clients: Clients, broken: set<ClientId>, maxTimes: int)
    requires Distinct(queue) && forall c | c in queue :: c in clients && !clients[c].closed
    ensures var t := Take(queue, clients, broken, maxTimes);
            && (t.client.Some? ==> t.client.value in t.clients && !t.clients[t.client.value].closed)
            && (forall c | c in t.rest :: c in t.clients && !t.clients[c].closed)
  {
    if queue != [] {
      var (good, clients') := Inspect(clients, queue[0], broken, maxTimes);
      if !good {
        TakeKeepsOpen(queue[1..], clients', broken, maxTimes);
      }
    }
  }

  lemma SweepShrinks(p: Pool, now: int, time: int, broken: set<ClientId>, p': Pool)
    requires PoolOk(p) && p' == Sweep(p, now, time, broken)
    ensures Shrinks(p, p')
  {
    SweptStocked(p, now, time, broken);
    forall q | q in p'.queues
      ensures QueueOk(p'.queues[q], p'.clients, q) && forall c | c in p'.queues[q] :: c in p.queues[q]
    {
      assert QueueOk(p.queues[q], p.clients, q);
      SweptEffect(p.queues[q], p.clients, now, time, broken);
    }
  }

  // ---------------------------------------------------------------------------------------------
  // Steps
  // ---------------------------------------------------------------------------------------------

  /** Closing clients in the pool interrupts nobody. */
  lemma ShrinkKeepsInv(s: Sys, p: Pool, s': Sys)
    requires Inv(s) && Shrinks(s.pool, p) && s' == WithPool(s, p)
    ensures Inv(s') && s'.runs == s.runs
  {
    forall r | r in s.runs ensures s'.runs[r] == s.runs[r] {
      var run := s.runs[r];
      if run.op.Some? {
        assert RunOk(run) && !run.window && Holds(run, run.op.value.client);
      }
    }
  }

  lemma StartKeepsInv(s: Sys, a: Action, lim: Limits, s': Sys)
    requires Inv(s) && Enabled(s, a) && a.Start? && s' == Apply(s, a, lim)
    ensures Inv(s')
  {
    if a.peer != -1 {
      var (got, left) := Checkout(s.pool, a.peer, a.broken, lim.maxTimes);
      CheckoutShrinks(s.pool, a.peer, a.broken, lim.maxTimes, got, left);
      var mid := WithPool(s, left);
      ShrinkKeepsInv(s, left, mid);
      if got.Some? {
        GotKeepsInv(s, mid, a.r, got.value, s');
      } else {
        AnewKeepsInv(mid, a, s');
      }
    }
  }

  /** A new run, on no client or on one that nobody else holds. */
  lemma NewRunKeepsInv(s: Sys, r: RunId, run: Run, s': Sys)
    requires Inv(s) && r !in s.runs && s' == s.(runs := s.runs[r := run]) && RunOk(run)
    requires run.client.Some? ==> var c := run.client.value;
               && c in s.pool.clients && c !in PooledIds(s.pool) && !s.pool.clients[c].closed
               && (forall q | q in s.runs :: !Holds(s.runs[q], c))
               && (run.op.Some? ==> Phase(run.op.value.kind, Traffic(s, c)))
    ensures Inv(s')
  {
    assert s'.pool == s.pool && s'.wire == s.wire;
    assert HeldOk(s');
    assert Exclusive(s');
    assert WireOk(s');
  }

  lemma GotKeepsInv(s: Sys, mid: Sys, r: RunId, c: ClientId, s': Sys)
    requires HeldOk(s) && WireOk(s) && Inv(mid) && mid.runs == s.runs && mid.wire == s.wire && r !in s.runs
    requires c in PooledIds(s.pool) && c !in PooledIds(mid.pool) && c in mid.pool.clients && !mid.pool.clients[c].closed
    requires s' == mid.(runs := mid.runs[r := StartPooled(c)])
    ensures Inv(s')
  {
    assert Whole(Traffic(s, c)) && Traffic(s, c) == Traffic(mid, c);
    assert forall q | q in s.runs :: !Holds(s.runs[q], c);
    NewRunKeepsInv(mid, r, StartPooled(c), s');
  }

  lemma CreateKeepsInv(s: Sys, c: ClientId, peer: int, now: int, s': Sys)
    requires Inv(s) && c !in s.pool.clients
    requires s' == s.(pool := s.pool.(clients := s.pool.clients[c := Client(peer, 0, false, now)]))
    ensures Inv(s') && PooledIds(s'.pool) == PooledIds(s.pool)
  {
    forall q | q in s'.pool.queues ensures QueueOk(s'.pool.queues[q], s'.pool.clients, q) {
      assert QueueOk(s.pool.queues[q], s.pool.clients, q);
    }
    assert PooledIds(s'.pool) == PooledIds(s.pool);
  }

  lemma AnewKeepsInv(s: Sys, a: Action, s': Sys)
    requires Inv(s) && a.Start? && a.r !in s.runs && a.c !in s.pool.clients
    requires var clients := if Creates(a.fate) then s.pool.clients[a.c := Client(a.peer, 0, false, a.now)]
        else s.pool.clients;
             s' == s.(runs := s.runs[a.r := StartAnew(a.fate, a.c)], pool := s.pool.(clients := clients))
    ensures Inv(s')
  {
    var mid := s.(pool := s'.pool);
    if Creates(a.fate) {
      assert a.c !in PooledIds(s.pool);
      assert forall q | q in s.runs :: !Holds(s.runs[q], a.c);
      assert Traffic(s, a.c) == Wire(0, 0, 0);
      CreateKeepsInv(s, a.c, a.peer, a.now, mid);
    }
    NewRunKeepsInv(mid, a.r, StartAnew(a.fate, a.c), s');
  }

  /** A step of one run alone, which takes no client and issues no operation. */
  lemma OneRunKeepsInv(s: Sys, r: RunId, run': Run, s': Sys)
    requires Inv(s) && r in s.runs && s' == s.(runs := s.runs[r := run']) && RunOk(run')
    requires forall c | Holds(run', c) :: Holds(s.runs[r], c)
    requires run'.op.Some? ==>
               s.runs[r].op.Some? && run'.op.value.(cancelled := s.runs[r].op.value.cancelled) == s.runs[r].op.value
    ensures Inv(s')
  {
    assert s'.pool == s.pool && s'.wire == s.wire;
    assert HeldOk(s');
    assert Exclusive(s');
    assert WireOk(s');
  }

  lemma FirstResume(run: Run, state: ModState)
    requires run.resumed == []
    ensures Resume(run, state).resumed == [state]
  {
  }

  lemma FinishKeepsInv(s: Sys, a: Action, lim: Limits, s': Sys)
    requires Inv(s) && Enabled(s, a) && a.Finish? && s' == Apply(s, a, lim)
    ensures Inv(s')
  {
    var run := s.runs[a.r];
    assert RunOk(run) && |run.resumed| == 0;
    FirstResume(run, if a.hookOk then MOD_SUCCEED else MOD_FAILED);
    OneRunKeepsInv(s, a.r, OnRecollected(run, a.hookOk), s');
  }

  lemma TimerIsLocal(s: Sys, a: Action, run': Run, s': Sys)
    requires RunsOk(s) && Exclusive(s) && Enabled(s, a) && a.Timer? && s' == ApplyTimer(s, a) && run' == s'.runs[a.r]
    ensures s' == s.(runs := s.runs[a.r := run'])
  {
    var run := s.runs[a.r];
    forall q | q in s.runs && q != a.r ensures s'.runs[q] == s.runs[q] {
      var other := s.runs[q];
      if other.op.Some? {
        assert RunOk(other) && Holds(other, other.op.value.client);
        assert run.client.Some? ==> Holds(run, run.client.value);
      }
    }
    assert s'.runs == s.runs[a.r := run'];
  }

  lemma TimerRun(run: Run, kind: TimerKind, late: TimerResult)
    requires RunOk(run) && TimersLeft(run, kind) > 0
    ensures var run' := OnTimer(run, kind, late);
            && RunOk(run') && run'.client == run.client && run'.window == run.window && run'.op == run.op
            && (CancelsSocket(run, late) ==> run'.fired)
  {
  }

  lemma TimerKeepsInv(s: Sys, a: Action, s': Sys)
    requires Inv(s) && Enabled(s, a) && a.Timer? && s' == ApplyTimer(s, a)
    ensures Inv(s')
  {
    assert RunOk(s.runs[a.r]);
    TimerRun(s.runs[a.r], a.kind, a.late);
    TimerIsLocal(s, a, s'.runs[a.r], s');
    assert RunOk(s'.runs[a.r]);
    OneRunKeepsInv(s, a.r, s'.runs[a.r], s');
  }

  /** What a socket handler makes of its own run. */
  lemma SocketRun(run: Run, result: SocketResult, hookOk: bool, cancelOk: bool)
    requires RunOk(run) && run.op.Some? && !run.window && (result == Aborted ==> run.op.value.cancelled)
    ensures var run' := OnSocket(run, result, hookOk, cancelOk);
            && RunOk(run') && run'.client == run.client
            && (run'.window <==> Recollects(run, result, cancelOk))
            && (run'.op.Some? ==> result == Success && !ClosesClient(run, result, hookOk, cancelOk))
            && (run'.op.Some? ==> forall w | Phase(run.op.value.kind, w) ::
                 Phase(run'.op.value.kind, Moved(w, run.op.value.kind)))
  {
    assert |run.resumed| == 0;
    FirstResume(run, MOD_TIMEOUT);
    FirstResume(run, MOD_FAILED);
  }

  lemma ClosePool(p: Pool, c: ClientId, p': Pool)
    requires PoolOk(p) && c in p.clients && c !in PooledIds(p) && p' == p.(clients := Close(p.clients, c))
    ensures PoolOk(p') && PooledIds(p') == PooledIds(p)
  {
    forall q | q in p'.queues ensures QueueOk(p'.queues[q], p'.clients, q) {
      assert QueueOk(p.queues[q], p.clients, q);
      assert forall d | d in p.queues[q] :: d in PooledIds(p);
    }
    assert PooledIds(p') == PooledIds(p);
  }

  lemma PutBackPool(p: Pool, c: ClientId, now: int, p': Pool)
    requires PoolOk(p) && c in p.clients && c !in PooledIds(p) && !p.clients[c].closed && p' == PutBack(p, c, now)
    ensures PoolOk(p') && PooledIds(p') == PooledIds(p) + {c}
  {
    forall q | q in p'.queues
      ensures QueueOk(p'.queues[q], p'.clients, q)
      ensures forall d | d in p'.queues[q] :: d in PooledIds(p) + {c}
    {
      if q in p.queues {
        assert QueueOk(p.queues[q], p.clients, q);
        assert forall d | d in p.queues[q] :: d in PooledIds(p);
      }
    }
    assert c in p'.queues[p.clients[c].peer];
    forall d | d in PooledIds(p) ensures d in PooledIds(p') {
      var q :| q in p.queues && d in p.queues[q];
      assert d in p'.queues[q];
    }
  }

  /** What a socket handler does outside its run: its client `c` may be closed, or go back to the pool. */
  ghost predicate SocketEffect(s: Sys, c: ClientId, run': Run, p: Pool) {
    && PoolOk(p) && p.clients.Keys == s.pool.clients.Keys
    && PooledIds(p) == PooledIds(s.pool) + (if run'.window then {c} else {})
    && (forall d | d in p.clients && d != c :: p.clients[d] == s.pool.clients[d])
    && (run'.op.Some? ==> c in p.clients && !p.clients[c].closed)
  }

  lemma SocketPool(s: Sys, a: Action, run: Run, c: ClientId, run': Run, p: Pool)
    requires PoolOk(s.pool) && HeldOk(s) && Enabled(s, a) && a.Socket? && p == ApplySocket(s, a).pool
    requires run == s.runs[a.r] && c == run.op.value.client && RunOk(run)
    requires run' == OnSocket(run, a.result, a.hookOk, a.cancelOk)
    ensures SocketEffect(s, c, run', p)
  {
    assert Holds(run, c);
    SocketRun(run, a.result, a.hookOk, a.cancelOk);
    if ClosesClient(run, a.result, a.hookOk, a.cancelOk) {
      ClosePool(s.pool, c, p);
    } else if Recollects(run, a.result, a.cancelOk) {
      PutBackPool(s.pool, c, a.now, p);
    }
  }

  lemma SocketInterruptsNobody(s: Sys, r: RunId, run': Run, c: ClientId, mid: Sys, p: Pool)
    requires RunsOk(s) && Exclusive(s) && r in s.runs && Holds(s.runs[r], c)
    requires SocketEffect(s, c, run', p) && run'.client == Some(c) && RunOk(run')
    requires mid.runs == s.runs[r := run'] && mid.pool == s.pool
    ensures WithPool(mid, p).runs == mid.runs
  {
    forall q | q in mid.runs ensures Interrupt(mid.runs, Closed(p) - Closed(s.pool))[q] == mid.runs[q] {
      var other := mid.runs[q];
      if q != r && other.op.Some? {
        assert RunOk(s.runs[q]) && Holds(other, other.op.value.client);
      }
    }
  }

  lemma SocketWire(s: Sys, r: RunId, run: Run, run': Run, c: ClientId, w: Wire, s': Sys)
    requires RunsOk(s) && Exclusive(s) && WireOk(s) && r in s.runs && run == s.runs[r] && Holds(run, c) && run.op.Some?
    requires SocketEffect(s, c, run', s'.pool) && s'.runs == s.runs[r := run'] && c in s.pool.clients
    requires s'.wire == s.wire || s'.wire == s.wire[c := w]
    requires run'.window ==> Whole(Traffic(s', c))
    requires c !in PooledIds(s.pool)
    requires run'.op.Some? ==> run'.op.value.client == c && Phase(run'.op.value.kind, Traffic(s', c))
    ensures WireOk(s')
  {
    forall q | q in s.runs && q != r && s.runs[q].op.Some? ensures s.runs[q].op.value.client != c {
      assert RunOk(s.runs[q]) && Holds(s.runs[q], s.runs[q].op.value.client);
    }
    assert forall d | d != c :: Traffic(s', d) == Traffic(s, d);
  }

  lemma SocketHeld(s: Sys, r: RunId, run: Run, run': Run, c: ClientId, s': Sys)
    requires HeldOk(s) && Exclusive(s) && r in s.runs && run == s.runs[r] && Holds(run, c)
    requires SocketEffect(s, c, run', s'.pool) && s'.runs == s.runs[r := run'] && run'.client == run.client
    ensures HeldOk(s') && Exclusive(s')
  {
    forall q, d | q in s'.runs && Holds(s'.runs[q], d)
      ensures d in s'.pool.clients && d !in PooledIds(s'.pool) && (s'.runs[q].op.Some? ==> !s'.pool.clients[d].closed)
    {
      assert Holds(s.runs[q], d);
    }
  }

  lemma SocketKeepsInv(s: Sys, a: Action, s': Sys)
    requires Inv(s) && Enabled(s, a) && a.Socket? && s' == ApplySocket(s, a)
    ensures Inv(s')
  {
    var run := s.runs[a.r];
    var c := run.op.value.client;
    var run' := OnSocket(run, a.result, a.hookOk, a.cancelOk);
    assert RunOk(run) && Holds(run, c) && Phase(run.op.value.kind, Traffic(s, c));
    SocketRun(run, a.result, a.hookOk, a.cancelOk);
    SocketPool(s, a, run, c, run', s'.pool);
    var mid := s.(runs := s.runs[a.r := run'], wire := s'.wire);
    SocketInterruptsNobody(s, a.r, run', c, mid, s'.pool);
    SocketHeld(s, a.r, run, run', c, s');
    SocketWire(s, a.r, run, run', c, Moved(Traffic(s, c), run.op.value.kind), s');
  }

  lemma StepKeepsInv(s: Sys, a: Action, lim: Limits, s': Sys)
    requires Inv(s) && Enabled(s, a) && s' == Apply(s, a, lim)
    ensures Inv(s')
  {
    match a
    case Start(_, _, _, _, _, _) => StartKeepsInv(s, a, lim, s');
    case Socket(_, _, _, _, _) => SocketKeepsInv(s, a, s');
    case Finish(_, _) => FinishKeepsInv(s, a, lim, s');
    case Timer(_, _, _) => TimerKeepsInv(s, a, s');
    case SweepPool(now, broken) =>
      var p := Sweep(s.pool, now, lim.checkTime, broken);
      SweepShrinks(s.pool, now, lim.checkTime, broken, p);
      ShrinkKeepsInv(s, p, s');
  }

  lemma {:induction false} ExecKeepsInv(s: Sys, actions: seq<Action>, lim: Limits)
    requires Inv(s) && Schedule(s, actions, lim)
    ensures Inv(Exec(s, actions, lim))
    decreases |actions|
  {
    if actions != [] {
      var s' := Apply(s, actions[0], lim);
      StepKeepsInv(s, actions[0], lim, s');
      ExecKeepsInv(s', actions[1..], lim);
    }
  }

  lemma ReachableInv(actions: seq<Action>, lim: Limits)
    requires Schedule(INIT, actions, lim)
    ensures Inv(Exec(INIT, actions, lim))
  {
    ExecKeepsInv(INIT, actions, lim);
  }

  // ---------------------------------------------------------------------------------------------
  // Results, for every schedule
  // ---------------------------------------------------------------------------------------------

  /** No client waits in the pool twice, in one queue or in two. */
  lemma NoClientPooledTwice(actions: seq<Action>, lim: Limits, peer: int, i: nat, peer': int, i': nat)
    requires Schedule(INIT, actions, lim)
    requires var q := Exec(INIT, actions, lim).pool.queues;
             peer in q && peer' in q && i < |q[peer]| && i' < |q[peer']| && q[peer][i] == q[peer'][i']
    ensures peer == peer' && i == i'
  {
    ReachableInv(actions, lim);
    var p := Exec(INIT, actions, lim).pool;
    assert QueueOk(p.queues[peer], p.clients, peer) && QueueOk(p.queues[peer'], p.clients, peer');
    assert p.queues[peer][i] in p.queues[peer] && p.queues[peer'][i'] in p.queues[peer'];
  }

  /** No two runs ever have an operation on the same client, and a client in use is open and not in the pool. */
  lemma OneRunPerClient(actions: seq<Action>, lim: Limits, r: RunId, q: RunId)
    requires Schedule(INIT, actions, lim)
    requires var s := Exec(INIT, actions, lim); r in s.runs && s.runs[r].op.Some? && q in s.runs && s.runs[q].op.Some?
    ensures var s := Exec(INIT, actions, lim);
            var c := s.runs[r].op.value.client;
            && (c == s.runs[q].op.value.client ==> r == q)
            && c !in PooledIds(s.pool) && c in s.pool.clients && !s.pool.clients[c].closed
  {
    ReachableInv(actions, lim);
    var s := Exec(INIT, actions, lim);
    assert RunOk(s.runs[r]) && Holds(s.runs[r], s.runs[r].op.value.client);
    assert RunOk(s.runs[q]) && Holds(s.runs[q], s.runs[q].op.value.client);
  }

  /** However late it comes, a timeout handler touches no other run and no client in the pool. */
  lemma LateTimerStaysInItsRun(actions: seq<Action>, lim: Limits, a: Action)
    requires Schedule(INIT, actions, lim) && Enabled(Exec(INIT, actions, lim), a) && a.Timer?
    ensures var s := Exec(INIT, actions, lim); var s' := Apply(s, a, lim);
            && s'.pool == s.pool && s'.wire == s.wire && s'.runs.Keys == s.runs.Keys
            && (forall q | q in s.runs && q != a.r :: s'.runs[q] == s.runs[q])
            && (CancelsSocket(s.runs[a.r], a.late) ==> s.runs[a.r].client.value !in PooledIds(s.pool))
  {
    ReachableInv(actions, lim);
    var s := Exec(INIT, actions, lim);
    var s' := Apply(s, a, lim);
    TimerIsLocal(s, a, s'.runs[a.r], s');
    assert CancelsSocket(s.runs[a.r], a.late) ==> Holds(s.runs[a.r], s.runs[a.r].client.value);
  }

  /** The operations a timer is armed for. */
  predicate Guards(kind: TimerKind, op: OpKind) {
    kind == ConnectTimer <==> op == Connect
  }

  /** An operation in flight has been interrupted by a timer that was not armed for it. */
  predicate Strays(op: Option<Op>, op': Option<Op>, kind: TimerKind) {
    && op.Some? && !op.value.cancelled && op'.Some? && op'.value.cancelled
    && !Guards(kind, op.value.kind)
  }

  /** Within its own run a late timer can do harm: a handler interrupts an operation it was not armed for exactly
      when it is the connect timer's, called without error while the request is being written or the reply read. */
  lemma OnlyLateConnectTimersStray(actions: seq<Action>, lim: Limits, s: Sys, a: Action)
    requires Schedule(INIT, actions, lim) && s == Exec(INIT, actions, lim) && Enabled(s, a) && a.Timer?
    ensures var op := s.runs[a.r].op;
            Strays(op, ApplyTimer(s, a).runs[a.r].op, a.kind)
            <==> a.kind == ConnectTimer && a.late == Expired
                 && op.Some? && op.value.kind != Connect && !op.value.cancelled
  {
    ReachableInv(actions, lim);
    assert RunOk(s.runs[a.r]);
  }

  /** Such a run: the connection is made, the connect timer's handler comes late, and the write is aborted although
      the reply timer has not expired. */
  lemma LateConnectTimerCanAbortTheWrite(lim: Limits) returns (actions: seq<Action>)
    ensures Schedule(INIT, actions, lim)
    ensures var s := Exec(INIT, actions, lim);
            0 in s.runs && s.runs[0].resumed == [MOD_TIMEOUT] && s.runs[0].replyTimers == 1
  {
    var a0, a1 := Start(0, 7, {}, Connects, 0, 0), Socket(0, Success, true, true, 0);
    var a2, a3 := Timer(0, ConnectTimer, Expired), Socket(0, Aborted, true, true, 0);
    actions := [a0, a1, a2, a3];
    var s1 := Apply(INIT, a0, lim);
    assert s1.runs[0] == StartAnew(Connects, 0);
    var s2 := Apply(s1, a1, lim);
    assert s2.runs[0].op == Some(Op(Write, 0, false)) && s2.runs[0].replyTimers == 1;
    var s3 := Apply(s2, a2, lim);
    assert s3.runs[0].op == Some(Op(Write, 0, true));
    var s4 := Apply(s3, a3, lim);
    Unroll(INIT, actions, lim);
    Unroll(s1, actions[1..], lim);
    Unroll(s2, actions[1..][1..], lim);
    Unroll(s3, actions[1..][1..][1..], lim);
  }

  lemma Unroll(s: Sys, actions: seq<Action>, lim: Limits)
    requires actions != [] && Enabled(s, actions[0])
    ensures Schedule(s, actions, lim) <==> Schedule(Apply(s, actions[0], lim), actions[1..], lim)
    ensures Schedule(s, actions, lim) ==> Exec(s, actions, lim) == Exec(Apply(s, actions[0], lim), actions[1..], lim)
  {
  }

  /** The run has given its client back. */
  predicate GivenBack(run: Run) {
    run.window || (run.client.None? && run.resumed != [])
  }

  lemma {:induction false} GivenBackForGood(s: Sys, after: seq<Action>, lim: Limits, r: RunId)
    requires Inv(s) && Schedule(s, after, lim) && r in s.runs && GivenBack(s.runs[r])
    ensures r in Exec(s, after, lim).runs && GivenBack(Exec(s, after, lim).runs[r])
    decreases |after|
  {
    if after != [] {
      var a, s' := after[0], Apply(s, after[0], lim);
      GivenBackStep(s, a, lim, r, s');
      StepKeepsInv(s, a, lim, s');
      GivenBackForGood(s', after[1..], lim, r);
    }
  }

  lemma GivenBackStep(s: Sys, a: Action, lim: Limits, r: RunId, s': Sys)
    requires RunsOk(s) && Enabled(s, a) && s' == Apply(s, a, lim) && r in s.runs && GivenBack(s.runs[r])
    ensures r in s'.runs && GivenBack(s'.runs[r])
  {
    assert RunOk(s.runs[r]) && s.runs[r].op.None?;
  }

  /** Once a run has handed its client back, none of its timers, however late, cancels a socket any more,
      whatever happens in between and whoever uses that client then. */
  lemma NoTimerAfterHandBack(before: seq<Action>, a: Action, after: seq<Action>, lim: Limits, t: Action)
    requires Schedule(INIT, before, lim) && Enabled(Exec(INIT, before, lim), a) && a.Socket?
    requires Recollects(Exec(INIT, before, lim).runs[a.r], a.result, a.cancelOk)
    requires Schedule(Apply(Exec(INIT, before, lim), a, lim), after, lim)
    requires var s := Exec(Apply(Exec(INIT, before, lim), a, lim), after, lim); Enabled(s, t) && t.Timer? && t.r == a.r
    ensures var s := Exec(Apply(Exec(INIT, before, lim), a, lim), after, lim);
            s.runs[a.r].client.None? && !CancelsSocket(s.runs[a.r], t.late)
  {
    ReachableInv(before, lim);
    var s := Exec(INIT, before, lim);
    var s' := Apply(s, a, lim);
    StepKeepsInv(s, a, lim, s');
    assert RunOk(s.runs[a.r]);
    SocketRun(s.runs[a.r], a.result, a.hookOk, a.cancelOk);
    assert s'.runs[a.r].window;
    GivenBackForGood(s', after, lim, a.r);
  }

  /** Every run is continued exactly once: by a pending operation, a resume, a synchronous failure or a loss
      to a failed timer cancel.  The event flag is open exactly while an operation is pending, and no handler
      is ever turned away as already called. */
  lemma OneContinuationPerRun(actions: seq<Action>, lim: Limits, r: RunId)
    requires Schedule(INIT, actions, lim) && r in Exec(INIT, actions, lim).runs
    ensures var run := Exec(INIT, actions, lim).runs[r];
            && Continuations(run) == 1 && |run.resumed| <= 1
            && (run.event == EventOpened <==> run.op.Some?)
            && run.strays == 0
  {
    ReachableInv(actions, lim);
    assert RunOk(Exec(INIT, actions, lim).runs[r]);
  }

  /** What an action continues run `r` with, if it does. */
  function Continuation(run: Run, a: Action): Option<ModState> {
    if a.Finish? then Some(if a.hookOk then MOD_SUCCEED else MOD_FAILED)
    else if !a.Socket? || run.op.None? then None
    else if a.result == Aborted then Some(MOD_TIMEOUT)
    else if a.result == Failure || (run.op.value.kind == Head && !a.hookOk)
        then (if a.cancelOk then Some(MOD_FAILED) else None)
    else None
  }

  /** A run is resumed only by its own handlers: with a timeout by an aborted operation, with success when the
      body was accepted, with failure when an operation failed, the head or the body was refused. */
  lemma WhyResumed(actions: seq<Action>, lim: Limits, a: Action, r: RunId)
    requires Schedule(INIT, actions, lim) && Enabled(Exec(INIT, actions, lim), a) && r in Exec(INIT, actions, lim).runs
    ensures var s := Exec(INIT, actions, lim); var s' := Apply(s, a, lim);
            r in s'.runs && s'.runs[r].resumed ==
              if !a.Start? && !a.SweepPool? && a.r == r && Continuation(s.runs[r], a).Some?
              then [Continuation(s.runs[r], a).value] else s.runs[r].resumed
  {
    ReachableInv(actions, lim);
    var s := Exec(INIT, actions, lim);
    assert RunOk(s.runs[r]);
    ResumeSource(s, a, lim, r, Apply(s, a, lim));
  }

  lemma OwnHandler(run: Run, a: Action)
    requires RunOk(run) && a.Socket? && run.op.Some?
    ensures OnSocket(run, a.result, a.hookOk, a.cancelOk).resumed ==
              if Continuation(run, a).Some? then [Continuation(run, a).value] else run.resumed
  {
    assert |run.resumed| == 0;
    FirstResume(run, MOD_TIMEOUT);
    FirstResume(run, MOD_FAILED);
  }

  lemma ResumeSource(s: Sys, a: Action, lim: Limits, r: RunId, s': Sys)
    requires Enabled(s, a) && r in s.runs && RunOk(s.runs[r]) && s' == Apply(s, a, lim)
    ensures r in s'.runs && s'.runs[r].resumed ==
              if !a.Start? && !a.SweepPool? && a.r == r && Continuation(s.runs[r], a).Some?
              then [Continuation(s.runs[r], a).value] else s.runs[r].resumed
  {
    var run := s.runs[r];
    match a
    case Socket(q, _, _, _, _) =>
      if q == r {
        OwnHandler(run, a);
      }
    case Finish(q, hookOk) =>
      if q == r {
        assert |run.resumed| == 0;
        FirstResume(run, if hookOk then MOD_SUCCEED else MOD_FAILED);
      }
    case _ =>
  }

  /** What follows a successful operation. */
  function Following(kind: OpKind): Option<OpKind> {
    match kind
    case Connect => Some(Write)
    case Write => Some(Head)
    case Head => Some(Body)
    case Body => None
  }

  /** The operation succeeded, and what it read was accepted. */
  predicate Good(kind: OpKind, a: Action)
    requires a.Socket?
  {
    a.result == Success && (kind == Head ==> a.hookOk)
  }

  /** The handler cancels its timer: on every failure, and when a connection or a whole reply is there. */
  predicate StopsTimer(kind: OpKind, a: Action)
    requires a.Socket?
  {
    a.result != Aborted && (!Good(kind, a) || kind == Connect || kind == Body)
  }

  /** The handler goes on: the operation is good, and its timer could be cancelled if that is due. */
  predicate GoesOn(kind: OpKind, a: Action)
    requires a.Socket?
  {
    Good(kind, a) && (StopsTimer(kind, a) ==> a.cancelOk)
  }

  /** A continuation is lost exactly where cancelling a timer fails.  A good operation is followed by the next one, in
      the same run and on the same client, and the last one by the client's return to the pool; a failed one is
      followed by none. */
  lemma WhatFollows(actions: seq<Action>, lim: Limits, s: Sys, a: Action, s': Sys)
    requires Schedule(INIT, actions, lim) && s == Exec(INIT, actions, lim) && Enabled(s, a) && a.Socket?
    requires s' == Apply(s, a, lim)
    ensures var run, run' := s.runs[a.r], s'.runs[a.r]; var Op(kind, c, _) := run.op.value;
            && run'.dropped == run.dropped + (if StopsTimer(kind, a) && !a.cancelOk then 1 else 0)
            && run'.op == (if GoesOn(kind, a) && kind != Body then Some(Op(Following(kind).value, c, false)) else None)
            && run'.client == Some(c)
            && (run'.window <==> GoesOn(kind, a) && kind == Body)
            && (c in PooledIds(s'.pool) <==> run'.window)
            && run'.connectTimers == run.connectTimers
            && run'.replyTimers == run.replyTimers + (if kind == Connect && GoesOn(kind, a) then 1 else 0)
  {
    ReachableInv(actions, lim);
    var run := s.runs[a.r];
    var c := run.op.value.client;
    assert RunOk(run) && Holds(run, c);
    SocketFollows(run, a);
    SocketPool(s, a, run, c, OnSocket(run, a.result, a.hookOk, a.cancelOk), s'.pool);
    var mid := s.(runs := s.runs[a.r := OnSocket(run, a.result, a.hookOk, a.cancelOk)], wire := s'.wire);
    SocketRun(run, a.result, a.hookOk, a.cancelOk);
    SocketInterruptsNobody(s, a.r, OnSocket(run, a.result, a.hookOk, a.cancelOk), c, mid, s'.pool);
  }

  lemma SocketFollows(run: Run, a: Action)
    requires RunOk(run) && run.op.Some? && a.Socket?
    ensures var run' := OnSocket(run, a.result, a.hookOk, a.cancelOk); var Op(kind, c, _) := run.op.value;
            && run'.dropped == run.dropped + (if StopsTimer(kind, a) && !a.cancelOk then 1 else 0)
            && run'.op == (if GoesOn(kind, a) && kind != Body then Some(Op(Following(kind).value, c, false)) else None)
            && run'.client == Some(c)
            && (run'.window <==> GoesOn(kind, a) && kind == Body)
            && run'.connectTimers == run.connectTimers
            && run'.replyTimers == run.replyTimers + (if kind == Connect && GoesOn(kind, a) then 1 else 0)
  {
  }

  /** A client is closed by a handler exactly when the head of its reply could not be read or was refused, and its
      timer could be cancelled; no other client is touched. */
  lemma WhoIsClosed(actions: seq<Action>, lim: Limits, s: Sys, a: Action, s': Sys, d: ClientId)
    requires Schedule(INIT, actions, lim) && s == Exec(INIT, actions, lim) && Enabled(s, a) && a.Socket?
    requires s' == Apply(s, a, lim) && d in s.pool.clients
    ensures var Op(kind, c, _) := s.runs[a.r].op.value;
            && d in s'.pool.clients
            && (s'.pool.clients[d].closed <==>
                  s.pool.clients[d].closed
                      || (d == c && kind == Head && a.result != Aborted && !Good(kind, a) && a.cancelOk))
            && (d != c ==> s'.pool.clients[d] == s.pool.clients[d])
  {
    ReachableInv(actions, lim);
    assert RunOk(s.runs[a.r]);
  }

  /** What a timer handler makes of its own run: an operation in flight is interrupted if it is called without error,
      whichever timer it is; nothing is resumed, failed, lost or forgotten. */
  ghost predicate OnlyInterrupts(run: Run, kind: TimerKind, late: TimerResult, run': Run) {
    && run'.op == (if run.op.Some? && late == Expired then Some(run.op.value.(cancelled := true)) else run.op)
    && run'.connectTimers == run.connectTimers - (if kind == ConnectTimer then 1 else 0)
    && run'.replyTimers == run.replyTimers - (if kind == ReplyTimer then 1 else 0)
    && run'.client == run.client && run'.resumed == run.resumed && run'.dropped == run.dropped
    && run'.failed == run.failed && run'.window == run.window && run'.event == run.event
  }

  lemma TimerInterrupts(run: Run, kind: TimerKind, late: TimerResult, mid: Run, run': Run)
    requires TimersLeft(run, kind) > 0 && (run.op.Some? ==> run.client == Some(run.op.value.client))
    requires mid == OnTimer(run, kind, late)
    requires run' == if run.op.Some? && CancelsSocket(run, late) then mid.(op := Some(run.op.value.(cancelled := true)))
                     else mid
    ensures OnlyInterrupts(run, kind, late, run')
  {
  }

  lemma TimerStep(s: Sys, a: Action, run: Run, mid: Run, s': Sys)
    requires Enabled(s, a) && a.Timer? && s' == ApplyTimer(s, a)
    requires run == s.runs[a.r] && mid == OnTimer(run, a.kind, a.late)
    requires run.op.Some? ==> run.client == Some(run.op.value.client)
    ensures a.r in s'.runs
    ensures s'.runs[a.r] == if run.op.Some? && CancelsSocket(run, a.late)
                            then mid.(op := Some(run.op.value.(cancelled := true))) else mid
  {
    assert mid.op == run.op;
  }

  /** So it is for every timer handler, however late. */
  lemma WhatATimerDoes(actions: seq<Action>, lim: Limits, s: Sys, a: Action, s': Sys)
    requires Schedule(INIT, actions, lim) && s == Exec(INIT, actions, lim) && Enabled(s, a) && a.Timer?
    requires s' == Apply(s, a, lim)
    ensures a.r in s'.runs && OnlyInterrupts(s.runs[a.r], a.kind, a.late, s'.runs[a.r])
  {
    ReachableInv(actions, lim);
    var run := s.runs[a.r];
    assert RunOk(run);
    var mid := OnTimer(run, a.kind, a.late);
    TimerStep(s, a, run, mid, s');
    TimerInterrupts(run, a.kind, a.late, mid, s'.runs[a.r]);
  }

  /** A run starts with an operation in flight and its timer armed: a write on a pooled client if there is one, else a
      connection attempt; or it fails at once. */
  lemma WhatAStartDoes(actions: seq<Action>, lim: Limits, s: Sys, a: Action, s': Sys)
    requires Schedule(INIT, actions, lim) && s == Exec(INIT, actions, lim) && Enabled(s, a) && a.Start?
    requires s' == Apply(s, a, lim)
    ensures a.r in s'.runs
    ensures var run' := s'.runs[a.r]; var got := Checkout(s.pool, a.peer, a.broken, lim.maxTimes).0;
            if a.peer != -1 && got.Some? then
              run'.op == Some(Op(Write, got.value, false)) && run'.replyTimers == 1 && run'.connectTimers == 0
                  && run'.failed == 0
            else if a.peer != -1 && a.fate == Connects then
              run'.op == Some(Op(Connect, a.c, false)) && run'.connectTimers == 1 && run'.replyTimers == 0
                  && run'.failed == 0
            else
              run'.op == None && run'.failed == 1 && run'.replyTimers == 0
              && (run'.connectTimers == 1 <==> a.peer != -1 && (a.fate == ThrowsArmed || a.fate == ThrowsLate))
  {
  }

  /** An operation in flight is guarded: its timer's handler is outstanding, or it has been called. */
  lemma OperationsAreGuarded(actions: seq<Action>, lim: Limits, r: RunId)
    requires Schedule(INIT, actions, lim) && r in Exec(INIT, actions, lim).runs
    requires Exec(INIT, actions, lim).runs[r].op.Some?
    ensures var run := Exec(INIT, actions, lim).runs[r];
            if run.op.value.kind == Connect then run.connectTimers + run.connectCalls == 1
            else run.replyTimers + run.replyCalls == 1
  {
    ReachableInv(actions, lim);
    assert RunOk(Exec(INIT, actions, lim).runs[r]);
  }

  /** A timed-out run was cancelled by its own timer; a successful one no longer holds a client. */
  lemma WhatAResumeMeans(actions: seq<Action>, lim: Limits, r: RunId)
    requires Schedule(INIT, actions, lim) && r in Exec(INIT, actions, lim).runs
    ensures var run := Exec(INIT, actions, lim).runs[r];
            && (MOD_TIMEOUT in run.resumed ==> run.fired)
            && (MOD_SUCCEED in run.resumed ==> run.client.None?)
  {
    ReachableInv(actions, lim);
    var run := Exec(INIT, actions, lim).runs[r];
    assert RunOk(run) && |run.resumed| <= 1;
    if run.resumed != [] { assert run.resumed == [run.resumed[0]]; }
  }

  /** A client in the pool is open, unused, and has completed a whole number of exchanges. */
  lemma PooledClientsAreClean(actions: seq<Action>, lim: Limits, c: ClientId)
    requires Schedule(INIT, actions, lim) && c in PooledIds(Exec(INIT, actions, lim).pool)
    ensures var s := Exec(INIT, actions, lim);
            && c in s.pool.clients && !s.pool.clients[c].closed
            && Whole(Traffic(s, c))
            && (forall r | r in s.runs && s.runs[r].op.Some? :: s.runs[r].op.value.client != c)
  {
    ReachableInv(actions, lim);
    var s := Exec(INIT, actions, lim);
    forall r | r in s.runs && s.runs[r].op.Some? ensures s.runs[r].op.value.client != c {
      assert RunOk(s.runs[r]) && Holds(s.runs[r], s.runs[r].op.value.client);
    }
    var peer :| peer in s.pool.queues && c in s.pool.queues[peer];
    assert QueueOk(s.pool.queues[peer], s.pool.clients, peer);
  }
}
