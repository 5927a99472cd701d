/** What holds of the client pool over whole runs: the use limit, the order of the queues, the age of clients. */
module ClientPoolRuns {
  import opened ModStates
  import opened ClientPool

  /** `Open` creates a client object outside the pool. */
  datatype Event =
    | Open(c: ClientId, peer: int)
    | Get(peer: int, broken: set<ClientId>)
    | Back(c: ClientId)
    | SweepAll(broken: set<ClientId>)

  datatype Timed = Timed(at: int, event: Event)

  /** `handed` counts how often each client was handed out of the pool. */
  datatype PoolState = PoolState(pool: Pool, now: int, lastSweep: int, handed: map<ClientId, nat>)

  datatype Limits = Limits(time: int, maxTimes: int)

  function Handed(s: PoolState, c: ClientId): nat {
    if c in s.handed then s.handed[c] else 0
  }

  /** Any event about clients that exist, at any time; `Stocked` is kept by every step (`StepKeepsUses`). */
  ghost predicate Enabled(s: PoolState, e: Timed) {
    && Stocked(s.pool)
    && match e.event
       case Open(c, _) => c !in s.pool.clients
       case Back(c) => c in s.pool.clients
       case _ => true
  }

  /** Time does not run backwards. */
  ghost predicate Monotone(s: PoolState, e: Timed) {
    s.now <= e.at
  }

  /** No client is put back that is already there. */
  ghost predicate NoDuplicate(s: PoolState, e: Timed) {
    e.event.Back? ==> e.event.c !in PooledIds(s.pool)
  }

  ghost function Apply(s: PoolState, e: Timed, lim: Limits): PoolState
    requires Enabled(s, e)
  {
    var s := s.(now := e.at);
    match e.event
    case Open(c, peer) => s.(pool := s.pool.(clients := s.pool.clients[c := Client(peer, 0, false, e.at)]))
    case Get(peer, broken) =>
      var (client, pool) := Checkout(s.pool, peer, broken, lim.maxTimes);
      if client.Some? then s.(pool := pool, handed := s.handed[client.value := Handed(s, client.value) + 1])
      else s.(pool := pool)
    case Back(c) => s.(pool := PutBack(s.pool, c, e.at))
    case SweepAll(broken) => s.(pool := Sweep(s.pool, e.at, lim.time, broken), lastSweep := e.at)
  }

  ghost function Init(start: int): PoolState {
    PoolState(Pool(map[], map[]), start, start, map[])
  }

  /** A run of the pool, with any clock, sweeps at any time and clients put back any number of times. */
  ghost predicate Run(start: int, events: seq<Timed>, lim: Limits)
    decreases |events|, 0
  {
    events == [] || (
      && Run(start, events[..|events| - 1], lim)
      && Enabled(After(start, events[..|events| - 1], lim), events[|events| - 1]))
  }

  ghost function After(start: int, events: seq<Timed>, lim: Limits): PoolState
    requires Run(start, events, lim)
    decreases |events|, 1
  {
    if events == [] then Init(start)
    else Apply(After(start, events[..|events| - 1], lim), events[|events| - 1], lim)
  }

  ghost predicate ClockIsMonotone(start: int, events: seq<Timed>, lim: Limits)
    requires Run(start, events, lim)
    decreases |events|
  {
    events == [] || (
      && ClockIsMonotone(start, events[..|events| - 1], lim)
      && Monotone(After(start, events[..|events| - 1], lim), events[|events| - 1]))
  }

  ghost predicate NobodyReturnsTwice(start: int, events: seq<Timed>, lim: Limits)
    requires Run(start, events, lim)
    decreases |events|
  {
    events == [] || (
      && NobodyReturnsTwice(start, events[..|events| - 1], lim)
      && NoDuplicate(After(start, events[..|events| - 1], lim), events[|events| - 1]))
  }

  // ---------------------------------------------------------------------------------------------
  // The use limit: every run
  // ---------------------------------------------------------------------------------------------

  ghost predicate UsesOk(s: PoolState, lim: Limits) {
    lim.maxTimes > 0 ==> forall c ::
      && Handed(s, c) <= lim.maxTimes
      && (c in s.handed ==> c in s.pool.clients && s.handed[c] <= s.pool.clients[c].times)
  }

  /** What checkout does to the store and to the queues. */
  lemma CheckoutEffect(p: Pool, peer: int, broken: set<ClientId>, maxTimes: int)
    requires Stocked(p)
    ensures var (client, p') := Checkout(p, peer, broken, maxTimes);
            && Stocked(p') && p'.queues.Keys == p.queues.Keys && p'.clients.Keys == p.clients.Keys
            && (forall q | q in p.queues :: |p'.queues[q]| <= |p.queues[q]|
                  && p'.queues[q] == p.queues[q][|p.queues[q]| - |p'.queues[q]|..])
            && (forall d | d in p.clients ::
                  && p'.clients[d].peer == p.clients[d].peer && p'.clients[d].touched == p.clients[d].touched
                  && p'.clients[d].times >= p.clients[d].times)
            && (client.Some? && maxTimes > 0 ==>
                  client.value in p.clients
                      && p.clients[client.value].times < p'.clients[client.value].times <= maxTimes)
  {
    if peer in p.queues {
      var queue := p.queues[peer];
      forall d | d in p.clients
        ensures var t := Take(queue, p.clients, broken, maxTimes);
                && t.clients.Keys == p.clients.Keys && |t.rest| <= |queue| && t.rest == queue[|queue| - |t.rest|..]
                && t.clients[d].peer == p.clients[d].peer && t.clients[d].touched == p.clients[d].touched
                && t.clients[d].times >= p.clients[d].times
                && (t.client.Some? ==> t.client.value in queue)
                && (t.client == Some(d) && maxTimes > 0 ==> p.clients[d].times < t.clients[d].times <= maxTimes)
      {
        TakeEffect(queue, p.clients, broken, maxTimes, d);
      }
      if queue != [] { assert queue[0] in p.clients; }
    }
  }

  lemma StepKeepsUses(s: PoolState, e: Timed, lim: Limits)
    requires Enabled(s, e) && UsesOk(s, lim)
    ensures Stocked(Apply(s, e, lim).pool) && UsesOk(Apply(s, e, lim), lim)
  {
    match e.event
    case Get(peer, broken) => CheckoutEffect(s.pool, peer, broken, lim.maxTimes);
    case SweepAll(broken) => SweptStocked(s.pool, e.at, lim.time, broken);
    case _ =>
  }

  lemma {:induction false} RunKeepsUses(start: int, events: seq<Timed>, lim: Limits)
    requires Run(start, events, lim)
    ensures Stocked(After(start, events, lim).pool) && UsesOk(After(start, events, lim), lim)
    decreases |events|
  {
    if events != [] {
      var last := |events| - 1;
      RunKeepsUses(start, events[..last], lim);
      StepKeepsUses(After(start, events[..last], lim), events[last], lim);
    }
  }

  /** With a use limit, no client is handed out more often than the limit, in any run at all. */
  lemma NoClientIsOverused(start: int, events: seq<Timed>, lim: Limits, c: ClientId)
    requires Run(start, events, lim) && lim.maxTimes > 0
    ensures Handed(After(start, events, lim), c) <= lim.maxTimes
  {
    RunKeepsUses(start, events, lim);
  }

  // ---------------------------------------------------------------------------------------------
  // The peers: every run
  // ---------------------------------------------------------------------------------------------

  ghost predicate PeersOk(p: Pool) {
    forall peer, c | peer in p.queues && c in p.queues[peer] :: c in p.clients && p.clients[c].peer == peer
  }

  lemma StepKeepsPeers(s: PoolState, e: Timed, lim: Limits, s': PoolState)
    requires Enabled(s, e) && PeersOk(s.pool) && s' == Apply(s, e, lim)
    ensures PeersOk(s'.pool)
  {
    match e.event
    case Open(_, _) =>
    case Get(peer, broken) =>
      CheckoutEffect(s.pool, peer, broken, lim.maxTimes);
      forall q, c | q in s'.pool.queues && c in s'.pool.queues[q] ensures c in s.pool.queues[q] {
      }
    case Back(_) =>
    case SweepAll(broken) =>
      forall q, c | q in s'.pool.queues && c in s'.pool.queues[q] ensures c in s.pool.queues[q] {
        SweptEffect(s.pool.queues[q], s.pool.clients, e.at, lim.time, broken);
      }
  }

  lemma {:induction false} RunKeepsPeers(start: int, events: seq<Timed>, lim: Limits)
    requires Run(start, events, lim)
    ensures PeersOk(After(start, events, lim).pool)
    decreases |events|
  {
    if events != [] {
      var last := |events| - 1;
      RunKeepsPeers(start, events[..last], lim);
      StepKeepsPeers(After(start, events[..last], lim), events[last], lim, After(start, events, lim));
    }
  }

  /** What a checkout returns is a client of the peer asked for, the first one waiting for it that is open, within
      its use limit and not broken; and it returns nothing only if there is none. */
  ghost predicate ReturnsFirstOfPeer(p: Pool, peer: int, broken: set<ClientId>, maxTimes: int)
    requires Stocked(p)
  {
    var queue := if peer in p.queues then p.queues[peer] else [];
    var (got, p') := Checkout(p, peer, broken, maxTimes);
    && (got.None? ==> forall c | c in queue :: !Acceptable(p.clients, c, broken, maxTimes))
    && (got.Some? ==> exists k ::
          && 0 <= k < |queue| && queue[k] == got.value && p'.queues[peer] == queue[k + 1..]
          && (forall i | 0 <= i < k :: !Acceptable(p.clients, queue[i], broken, maxTimes))
          && Acceptable(p.clients, queue[k], broken, maxTimes) && p.clients[queue[k]].peer == peer)
  }

  lemma CheckoutIsFirst(p: Pool, peer: int, broken: set<ClientId>, maxTimes: int)
    requires Stocked(p) && PeersOk(p)
    ensures ReturnsFirstOfPeer(p, peer, broken, maxTimes)
  {
    if peer in p.queues {
      var queue := p.queues[peer];
      TakeFindsFirst(queue, p.clients, broken, maxTimes);
      var t := Take(queue, p.clients, broken, maxTimes);
      var k := Stop(queue, t);
      if t.client.None? {
        forall c | c in queue ensures !Acceptable(p.clients, c, broken, maxTimes) {
          var i :| 0 <= i < |queue| && queue[i] == c;
        }
      } else {
        assert queue[k] in queue;
      }
    }
  }

  /** So it is after any run, with any clock, sweeps at any time and clients put back any number of times. */
  lemma CheckoutReturnsFirstOfPeer(start: int, events: seq<Timed>, lim: Limits, peer: int, broken: set<ClientId>)
    requires Run(start, events, lim)
    ensures Stocked(After(start, events, lim).pool)
    ensures ReturnsFirstOfPeer(After(start, events, lim).pool, peer, broken, lim.maxTimes)
  {
    RunKeepsUses(start, events, lim);
    RunKeepsPeers(start, events, lim);
    CheckoutIsFirst(After(start, events, lim).pool, peer, broken, lim.maxTimes);
  }

  // ---------------------------------------------------------------------------------------------
  // What a sweep leaves: every run
  // ---------------------------------------------------------------------------------------------

  /** `c` waits in the queue of `peer`. */
  predicate Waits(p: Pool, peer: int, c: ClientId) {
    peer in p.queues && c in p.queues[peer]
  }

  /** A client worth keeping at a sweep: not touched too long ago, open and not broken. */
  predicate Fresh(client: Client, at: int, time: int) {
    at - client.touched < time && !client.closed
  }

  /** Right after a sweep the clients that wait are those that waited before and are fresh and not broken; those that
      were too old are closed, and nothing else about any client has changed. */
  lemma AfterASweep(start: int, events: seq<Timed>, at: int, broken: set<ClientId>, lim: Limits, s: PoolState,
      s': PoolState)
    requires Run(start, events, lim) && s == After(start, events, lim)
    requires Run(start, events + [Timed(at, SweepAll(broken))], lim)
    requires s' == After(start, events + [Timed(at, SweepAll(broken))], lim)
    ensures s'.pool.clients.Keys == s.pool.clients.Keys
    ensures forall q, c | Waits(s.pool, q, c) :: c in s.pool.clients
    ensures forall q, c ::
              Waits(s'.pool, q, c) <==>
              Waits(s.pool, q, c) && Fresh(s.pool.clients[c], at, lim.time) && c !in broken
    ensures forall c | c in s.pool.clients ::
              s'.pool.clients[c] == s.pool.clients[c].(closed := s'.pool.clients[c].closed)
    ensures forall c | c in s.pool.clients ::
              (s'.pool.clients[c].closed <==>
              s.pool.clients[c].closed
              || (at - s.pool.clients[c].touched >= lim.time && exists q :: Waits(s.pool, q, c)))
  {
    RunKeepsUses(start, events, lim);
    assert (events + [Timed(at, SweepAll(broken))])[..|events|] == events;
    forall q, c
      ensures Waits(s'.pool, q, c) <==>
          Waits(s.pool, q, c) && Fresh(s.pool.clients[c], at, lim.time) && c !in broken
    {
      if q in s.pool.queues {
        WhoSurvives(s.pool.queues[q], s.pool.clients, at, lim.time, broken, c);
      }
    }
    forall c ensures c in PooledIds(s.pool) <==> exists q :: Waits(s.pool, q, c) {
      if c in PooledIds(s.pool) {
        var q :| q in s.pool.queues && c in s.pool.queues[q];
        assert Waits(s.pool, q, c);
      }
    }
  }

  /** So right after a sweep nobody waits who is closed, broken or too old. */
  lemma NoDeadClientAfterASweep(start: int, events: seq<Timed>, at: int, broken: set<ClientId>, lim: Limits,
      peer: int, c: ClientId)
    requires Run(start, events, lim) && Run(start, events + [Timed(at, SweepAll(broken))], lim)
    requires Waits(After(start, events + [Timed(at, SweepAll(broken))], lim).pool, peer, c)
    ensures var p := After(start, events + [Timed(at, SweepAll(broken))], lim).pool;
            && c in p.clients && !p.clients[c].closed && c !in broken && at - p.clients[c].touched < lim.time
  {
    var s, s' := After(start, events, lim), After(start, events + [Timed(at, SweepAll(broken))], lim);
    AfterASweep(start, events, at, broken, lim, s, s');
    assert Waits(s'.pool, peer, c);
    assert Waits(s.pool, peer, c) && c in s.pool.clients;
  }

  // ---------------------------------------------------------------------------------------------
  // No duplicates: runs in which nobody is put back twice
  // ---------------------------------------------------------------------------------------------

  ghost predicate DistinctOk(p: Pool) {
    forall peer | peer in p.queues :: Distinct(p.queues[peer])
  }

  lemma StepKeepsDistinct(s: PoolState, e: Timed, lim: Limits, s': PoolState)
    requires Enabled(s, e) && NoDuplicate(s, e) && DistinctOk(s.pool) && s' == Apply(s, e, lim)
    ensures DistinctOk(s'.pool)
  {
    match e.event
    case Open(_, _) =>
    case Get(peer, broken) =>
      CheckoutEffect(s.pool, peer, broken, lim.maxTimes);
      forall q | q in s'.pool.queues ensures Distinct(s'.pool.queues[q]) {
        assert Distinct(s.pool.queues[q]);
      }
    case Back(c) =>
      forall q | q in s'.pool.queues ensures Distinct(s'.pool.queues[q]) {
        assert q in s.pool.queues ==>
            Distinct(s.pool.queues[q]) && forall d | d in s.pool.queues[q] :: d in PooledIds(s.pool);
      }
    case SweepAll(broken) =>
      forall q | q in s'.pool.queues ensures Distinct(s'.pool.queues[q]) {
        assert Distinct(s.pool.queues[q]);
        SweptEffect(s.pool.queues[q], s.pool.clients, e.at, lim.time, broken);
      }
  }

  lemma {:induction false} RunKeepsDistinct(start: int, events: seq<Timed>, lim: Limits)
    requires Run(start, events, lim) && NobodyReturnsTwice(start, events, lim)
    ensures DistinctOk(After(start, events, lim).pool)
    decreases |events|
  {
    if events != [] {
      var last := |events| - 1;
      RunKeepsDistinct(start, events[..last], lim);
      StepKeepsDistinct(After(start, events[..last], lim), events[last], lim, After(start, events, lim));
    }
  }

  /** No client waits twice, in one queue or in two. */
  ghost predicate NobodyTwice(queues: Queues) {
    forall q, i, q', i' |
      && q in queues && 0 <= i < |queues[q]| && q' in queues && 0 <= i' < |queues[q']|
      && queues[q][i] == queues[q'][i'] ::
      q == q' && i == i'
  }

  lemma PeersSeparate(p: Pool)
    requires PeersOk(p) && DistinctOk(p)
    ensures NobodyTwice(p.queues)
  {
    forall q, i, q', i' |
      && q in p.queues && 0 <= i < |p.queues[q]| && q' in p.queues && 0 <= i' < |p.queues[q']|
      && p.queues[q][i] == p.queues[q'][i']
      ensures q == q' && i == i'
    {
      var c := p.queues[q][i];
      assert c == p.queues[q'][i'];
      assert c in p.queues[q] && p.clients[c].peer == q;
      assert c in p.queues[q'] && p.clients[c].peer == q';
      assert Distinct(p.queues[q]);
    }
  }

  /** If nobody is put back while it is there, no client waits twice, whatever the clock does. */
  lemma NobodyWaitsTwice(start: int, events: seq<Timed>, lim: Limits)
    requires Run(start, events, lim) && NobodyReturnsTwice(start, events, lim)
    ensures NobodyTwice(After(start, events, lim).pool.queues)
  {
    RunKeepsPeers(start, events, lim);
    RunKeepsDistinct(start, events, lim);
    PeersSeparate(After(start, events, lim).pool);
  }

  // ---------------------------------------------------------------------------------------------
  // The age of clients: runs with a monotone clock
  // ---------------------------------------------------------------------------------------------

  /** A waiting client was not expired at the last sweep. */
  ghost predicate AgesOk(s: PoolState, lim: Limits) {
    && s.lastSweep <= s.now
    && forall c | c in PooledIds(s.pool) :: c in s.pool.clients && s.lastSweep - s.pool.clients[c].touched < lim.time
  }

  lemma StepKeepsAges(s: PoolState, e: Timed, lim: Limits, s': PoolState)
    requires Enabled(s, e) && Monotone(s, e) && AgesOk(s, lim) && lim.time > 0 && s' == Apply(s, e, lim)
    ensures AgesOk(s', lim)
  {
    match e.event
    case Open(_, _) => assert PooledIds(s'.pool) == PooledIds(s.pool);
    case Get(peer, broken) =>
      CheckoutEffect(s.pool, peer, broken, lim.maxTimes);
      forall q, c | q in s'.pool.queues && c in s'.pool.queues[q] ensures c in PooledIds(s.pool) {
        assert c in s.pool.queues[q];
      }
    case Back(b) =>
      forall q, c | q in s'.pool.queues && c in s'.pool.queues[q] ensures c == b || c in PooledIds(s.pool) {
        assert c == b || (q in s.pool.queues && c in s.pool.queues[q]);
      }
    case SweepAll(broken) =>
      forall q, c | q in s'.pool.queues && c in s'.pool.queues[q]
        ensures c in s.pool.clients && !s.pool.clients[c].Expired(e.at, lim.time)
      {
        SweptEffect(s.pool.queues[q], s.pool.clients, e.at, lim.time, broken);
      }
  }

  lemma {:induction false} RunKeepsAges(start: int, events: seq<Timed>, lim: Limits)
    requires Run(start, events, lim) && ClockIsMonotone(start, events, lim) && lim.time > 0
    ensures AgesOk(After(start, events, lim), lim)
    decreases |events|
  {
    if events != [] {
      var last := |events| - 1;
      RunKeepsAges(start, events[..last], lim);
      StepKeepsAges(After(start, events[..last], lim), events[last], lim, After(start, events, lim));
    }
  }

  /** Up to the moment `t`, by which the next sweep is at most `delay` overdue, no waiting client has been idle for
      twice the check time plus that delay. */
  lemma NoClientIdlesTooLong(start: int, events: seq<Timed>, lim: Limits, c: ClientId, t: int, delay: nat)
    requires Run(start, events, lim) && ClockIsMonotone(start, events, lim) && lim.time > 0
    requires c in PooledIds(After(start, events, lim).pool)
        && t <= After(start, events, lim).lastSweep + lim.time + delay
    ensures var s := After(start, events, lim);
            c in s.pool.clients && t - s.pool.clients[c].touched < 2 * lim.time + delay
  {
    RunKeepsAges(start, events, lim);
  }

  // ---------------------------------------------------------------------------------------------
  // The order of the queues: runs in which, moreover, nobody is put back twice
  // ---------------------------------------------------------------------------------------------

  ghost predicate Sorted(queue: seq<ClientId>, clients: Clients)
    requires forall c | c in queue :: c in clients
  {
    forall i, j | 0 <= i < j < |queue| :: clients[queue[i]].touched <= clients[queue[j]].touched
  }

  ghost predicate QueueOk(queue: seq<ClientId>, clients: Clients, now: int) {
    (forall c | c in queue :: c in clients && clients[c].touched <= now) && Sorted(queue, clients)
  }

  ghost predicate QueuesOk(s: PoolState) {
    forall peer | peer in s.pool.queues :: QueueOk(s.pool.queues[peer], s.pool.clients, s.now)
  }

  lemma SuffixOk(queue: seq<ClientId>, n: nat, clients: Clients, clients': Clients, now: int, now': int)
    requires QueueOk(queue, clients, now) && n <= |queue| && now <= now'
    requires forall c | c in queue ::
               c in clients' && clients'[c].touched == clients[c].touched
    ensures QueueOk(queue[n..], clients', now')
  {
  }

  lemma {:induction false} SweptSorted(queue: seq<ClientId>, clients: Clients, now: int, time: int,
      broken: set<ClientId>)
    requires (forall c | c in queue :: c in clients) && Sorted(queue, clients)
    ensures forall c | c in Swept(queue, clients, now, time, broken) :: c in queue
    ensures Sorted(Swept(queue, clients, now, time, broken), clients)
  {
    if queue != [] {
      SweptSorted(queue[1..], clients, now, time, broken);
      var kept := Swept(queue[1..], clients, now, time, broken);
      forall i | 0 <= i < |kept| ensures clients[queue[0]].touched <= clients[kept[i]].touched {
        assert kept[i] in kept && kept[i] in queue[1..];
        var j :| 0 <= j < |queue[1..]| && queue[1..][j] == kept[i];
        assert queue[j + 1] == kept[i];
      }
    }
  }

  lemma AppendOk(queue: seq<ClientId>, c: ClientId, clients: Clients, now: int, at: int)
    requires QueueOk(queue, clients, now) && now <= at && c !in queue && c in clients
    ensures QueueOk(queue + [c], clients[c := clients[c].(touched := at)], at)
  {
  }

  lemma SweptOk(queue: seq<ClientId>, clients: Clients, clients': Clients, now: int, at: int, time: int,
      broken: set<ClientId>)
    requires QueueOk(queue, clients, now) && now <= at && clients'.Keys == clients.Keys
    requires forall c | c in clients :: clients'[c].touched == clients[c].touched
    ensures QueueOk(Swept(queue, clients, at, time, broken), clients', at)
  {
    SweptEffect(queue, clients, at, time, broken);
    SweptSorted(queue, clients, at, time, broken);
    var kept := Swept(queue, clients, at, time, broken);
    assert forall i | 0 <= i < |kept| :: kept[i] in kept;
  }

  lemma GetKeepsQueue(p: Pool, peer: int, broken: set<ClientId>, maxTimes: int, q: int, now: int, at: int)
    requires Stocked(p) && q in p.queues && QueueOk(p.queues[q], p.clients, now) && now <= at
    ensures var p' := Checkout(p, peer, broken, maxTimes).1;
            q in p'.queues && QueueOk(p'.queues[q], p'.clients, at)
  {
    CheckoutEffect(p, peer, broken, maxTimes);
    var p' := Checkout(p, peer, broken, maxTimes).1;
    SuffixOk(p.queues[q], |p.queues[q]| - |p'.queues[q]|, p.clients, p'.clients, now, at);
  }

  lemma BackKeepsQueue(p: Pool, c: ClientId, was: seq<ClientId>, q: int, now: int, at: int, p': Pool)
    requires c in p.clients && p' == PutBack(p, c, at) && q in p'.queues && c !in was && now <= at
    requires was == (if q in p.queues then p.queues[q] else []) && QueueOk(was, p.clients, now)
    ensures QueueOk(p'.queues[q], p'.clients, at)
  {
    if q == p.clients[c].peer {
      AppendOk(was, c, p.clients, now, at);
    } else {
      SuffixOk(was, 0, p.clients, p'.clients, now, at);
      assert was[0..] == was;
    }
  }

  lemma StepKeepsQueue(s: PoolState, e: Timed, lim: Limits, s': PoolState, q: int)
    requires Enabled(s, e) && Monotone(s, e) && NoDuplicate(s, e) && QueuesOk(s) && s' == Apply(s, e, lim)
    requires q in s'.pool.queues
    ensures QueueOk(s'.pool.queues[q], s'.pool.clients, s'.now)
  {
    var was := if q in s.pool.queues then s.pool.queues[q] else [];
    assert QueueOk(was, s.pool.clients, s.now);
    match e.event
    case Open(_, _) =>
      SuffixOk(was, 0, s.pool.clients, s'.pool.clients, s.now, s'.now);
      assert was[0..] == was;
    case Get(peer, broken) =>
      CheckoutEffect(s.pool, peer, broken, lim.maxTimes);
      GetKeepsQueue(s.pool, peer, broken, lim.maxTimes, q, s.now, e.at);
    case Back(c) =>
      assert c in was ==> c in PooledIds(s.pool);
      BackKeepsQueue(s.pool, c, was, q, s.now, e.at, s'.pool);
    case SweepAll(broken) =>
      SweptOk(was, s.pool.clients, s'.pool.clients, s.now, e.at, lim.time, broken);
  }

  lemma {:induction false} RunKeepsQueues(start: int, events: seq<Timed>, lim: Limits)
    requires Run(start, events, lim) && ClockIsMonotone(start, events, lim) && NobodyReturnsTwice(start, events, lim)
    ensures QueuesOk(After(start, events, lim))
    decreases |events|
  {
    if events != [] {
      var last := |events| - 1;
      RunKeepsQueues(start, events[..last], lim);
      var s' := After(start, events, lim);
      forall q | q in s'.pool.queues ensures QueueOk(s'.pool.queues[q], s'.pool.clients, s'.now) {
        StepKeepsQueue(After(start, events[..last], lim), events[last], lim, s', q);
      }
    }
  }

  /** Each queue holds its clients in the order in which they were last put back. */
  lemma QueuesAreSorted(start: int, events: seq<Timed>, lim: Limits, peer: int)
    requires Run(start, events, lim) && ClockIsMonotone(start, events, lim) && NobodyReturnsTwice(start, events, lim)
    requires peer in After(start, events, lim).pool.queues
    ensures var s := After(start, events, lim);
            && (forall c | c in s.pool.queues[peer] :: c in s.pool.clients)
            && Sorted(s.pool.queues[peer], s.pool.clients)
  {
    RunKeepsQueues(start, events, lim);
    var s := After(start, events, lim);
    assert QueueOk(s.pool.queues[peer], s.pool.clients, s.now);
  }
}
