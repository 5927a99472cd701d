/** The pool of idle backend connections: checkout with a use limit, recollection, and the expiry sweep. */
module ClientPool {
  import opened ModStates

  type ClientId = nat

  /** The fields of a `TcpClient` object.  Objects are kept in a store and referred to by identity. */
  datatype Client = Client(peer: int, times: nat, closed: bool, touched: int)
  {
    predicate Expired(now: int, time: int) { now - touched >= time }
  }

  type Clients = map<ClientId, Client>
  type Queues = map<int, seq<ClientId>>

  datatype Pool = Pool(queues: Queues, clients: Clients)

  function Close(clients: Clients, c: ClientId): Clients
    requires c in clients
  {
    clients[c := clients[c].(closed := true)]
  }

  // ---------------------------------------------------------------------------------------------
  // Checkout
  // ---------------------------------------------------------------------------------------------

  datatype Taken = Taken(client: Option<ClientId>, rest: seq<ClientId>, clients: Clients)

  /** One client popped from the front: the store afterwards, and whether it is handed out.
      `broken` holds the clients whose socket polls as being in error. */
  function Inspect(clients: Clients, c: ClientId, broken: set<ClientId>, maxTimes: int): (bool, Clients)
    requires c in clients
  {
    if clients[c].closed then (false, clients)
    else if maxTimes > 0 then
      var used := clients[c := clients[c].(times := clients[c].times + 1)];
      if used[c].times > maxTimes then (false, Close(used, c)) else (c !in broken, used)
    else (c !in broken, clients)
  }

  function Take(queue: seq<ClientId>, clients: Clients, broken: set<ClientId>, maxTimes: int): Taken
    requires forall c | c in queue :: c in clients
  {
    if queue == [] then Taken(None, [], clients)
    else
      var (good, clients') := Inspect(clients, queue[0], broken, maxTimes);
      if good then Taken(Some(queue[0]), queue[1..], clients')
      else Take(queue[1..], clients', broken, maxTimes)
  }

  ghost predicate Stocked(p: Pool) {
    forall peer, c | peer in p.queues && c in p.queues[peer] :: c in p.clients
  }

  function Checkout(p: Pool, peer: int, broken: set<ClientId>, maxTimes: int): (Option<ClientId>, Pool)
    requires Stocked(p)
  {
    if peer !in p.queues then (None, p)
    else
      var t := Take(p.queues[peer], p.clients, broken, maxTimes);
      (t.client, Pool(p.queues[peer := t.rest], t.clients))
  }

  // ---------------------------------------------------------------------------------------------
  // Recollection and expiry
  // ---------------------------------------------------------------------------------------------

  function PutBack(p: Pool, c: ClientId, now: int): Pool
    requires c in p.clients
  {
    var peer := p.clients[c].peer;
    var queue := if peer in p.queues then p.queues[peer] else [];
    Pool(p.queues[peer := queue + [c]], p.clients[c := p.clients[c].(touched := now)])
  }

  predicate Keeps(clients: Clients, c: ClientId, now: int, time: int, broken: set<ClientId>)
    requires c in clients
  {
    !clients[c].Expired(now, time) && !clients[c].closed && c !in broken
  }

  /** The clients that survive a sweep, in their old order. */
  function Swept(queue: seq<ClientId>, clients: Clients, now: int, time: int, broken: set<ClientId>): seq<ClientId>
    requires forall c | c in queue :: c in clients
  {
    if queue == [] then []
    else (if Keeps(clients, queue[0], now, time, broken) then [queue[0]] else [])
         + Swept(queue[1..], clients, now, time, broken)
  }

  /** The clients waiting in some queue. */
  ghost function PooledIds(p: Pool): set<ClientId> {
    set peer, c | peer in p.queues && c in p.queues[peer] :: c
  }

  ghost function CloseExpired(clients: Clients, ids: seq<ClientId>, now: int, time: int): Clients {
    map c | c in clients ::
      if c in ids && clients[c].Expired(now, time) then clients[c].(closed := true) else clients[c]
  }

  ghost function Sweep(p: Pool, now: int, time: int, broken: set<ClientId>): Pool
    requires Stocked(p)
  {
    Pool(map peer | peer in p.queues :: Swept(p.queues[peer], p.clients, now, time, broken),
         map c | c in p.clients ::
           if c in PooledIds(p) && p.clients[c].Expired(now, time) then p.clients[c].(closed := true) else p.clients[c])
  }

  lemma CloseOneMore(clients: Clients, ids: seq<ClientId>, c: ClientId, now: int, time: int)
    requires c in clients
    ensures var closing := CloseExpired(clients, ids, now, time);
            && closing[c].Expired(now, time) == clients[c].Expired(now, time)
            && (!clients[c].Expired(now, time) ==> closing[c] == clients[c])
            && CloseExpired(clients, ids + [c], now, time) ==
                 if clients[c].Expired(now, time) then Close(closing, c) else closing
  {
  }

  lemma Erased<T>(front: seq<T>, todo: seq<T>)
    requires todo != []
    ensures var s := front + todo;
            s[|front|] == todo[0] && s[..|front|] + s[|front| + 1..] == front + todo[1..]
                && s == front + [todo[0]] + todo[1..]
  {
  }

  lemma {:induction false} SweptAppend(q: seq<ClientId>, c: ClientId, clients: Clients, now: int, time: int,
      broken: set<ClientId>)
    requires forall d | d in q + [c] :: d in clients
    ensures Swept(q + [c], clients, now, time, broken) ==
            Swept(q, clients, now, time, broken) + (if Keeps(clients, c, now, time, broken) then [c] else [])
  {
    if q == [] {
      assert q + [c] == [c];
      assert [c][1..] == [];
    } else {
      assert (q + [c])[1..] == q[1..] + [c];
      SweptAppend(q[1..], c, clients, now, time, broken);
    }
  }

  // ---------------------------------------------------------------------------------------------
  // The pool object
  // ---------------------------------------------------------------------------------------------

  class TcpClientPool {
    const maxTimes: int
    const checkTime: int
    var freeClients: Queues
    var clients: Clients

    ghost function Contents(): Pool
      reads this
    {
      Pool(freeClients, clients)
    }

    ghost predicate Valid()
      reads this
    {
      Stocked(Contents())
    }

    constructor (checkTime: int, times: int)
      ensures Valid() && Contents() == Pool(map[], map[]) && maxTimes == times && this.checkTime == checkTime
    {
      this.checkTime, maxTimes := checkTime, times;
      freeClients, clients := map[], map[];
    }

    /** The queue of the peer is worked on under the write lock and put back before returning. */
    method GetClient(peer: int, broken: set<ClientId>) returns (client: Option<ClientId>)
      requires Valid()
      modifies this
      ensures Valid()
      ensures (client, Contents()) == Checkout(old(Contents()), peer, broken, maxTimes)
    {
      client := None;
      if peer in freeClients {
        var queue := freeClients[peer];
        ghost var result := Take(queue, clients, broken, maxTimes);
        while queue != []
          invariant clients.Keys == old(clients.Keys) && freeClients == old(freeClients)
          invariant client == None && forall c | c in queue :: c in clients
          invariant Take(queue, clients, broken, maxTimes) == result
          decreases |queue|
        {
          var c := queue[0];
          ghost var before := clients;
          queue := queue[1..];
          if !clients[c].closed {
            if maxTimes > 0 {
              clients := clients[c := clients[c].(times := clients[c].times + 1)];
              if clients[c].times > maxTimes {
                clients := Close(clients, c);
              } else if c !in broken {
                client := Some(c);
              }
            } else if c !in broken {
              client := Some(c);
            }
          }
          assert (client == Some(c), clients) == Inspect(before, c, broken, maxTimes);
          if client.Some? {
            break;
          }
        }
        assert result == Taken(client, queue, clients);
        freeClients := freeClients[peer := queue];
      }
    }

    method Recollect(c: ClientId, now: int)
      requires Valid() && c in clients
      modifies this
      ensures Valid() && Contents() == PutBack(old(Contents()), c, now)
    {
      clients := clients[c := clients[c].(touched := now)];
      var peer := clients[c].peer;
      if peer !in freeClients {
        freeClients := freeClients[peer := []];
      }
      freeClients := freeClients[peer := freeClients[peer] + [c]];
    }

    /** One queue of the sweep. */
    method SweepQueue(deque: seq<ClientId>, now: int, broken: set<ClientId>, ghost before: Clients,
        ghost seen: seq<ClientId>)
      returns (kept: seq<ClientId>)
      requires clients == CloseExpired(before, seen, now, checkTime)
      requires forall c | c in deque :: c in before
      modifies this`clients
      ensures kept == Swept(deque, before, now, checkTime, broken)
      ensures clients == CloseExpired(before, seen + deque, now, checkTime)
    {
      ghost var done, todo, front := [], deque, [];
      assert seen + done == seen;
      var k := 0;
      kept := deque;
      while k < |kept|
        invariant deque == done + todo && kept == front + todo && k == |front|
        invariant front == Swept(done, before, now, checkTime, broken)
        invariant clients == CloseExpired(before, seen + done, now, checkTime)
        decreases |todo|
      {
        var c := kept[k];
        Erased(front, todo);
        Erased(done, todo);
        assert c in deque;
        SweptAppend(done, c, before, now, checkTime, broken);
        CloseOneMore(before, seen + done, c, now, checkTime);
        assert seen + done + [c] == seen + (done + [c]);
        done, todo := done + [c], todo[1..];
        if clients[c].Expired(now, checkTime) {
          clients := Close(clients, c);
          kept := kept[..k] + kept[k + 1..];
        } else if clients[c].closed || c in broken {
          kept := kept[..k] + kept[k + 1..];
        } else {
          k := k + 1;
          front := front + [c];
        }
      }
      assert done == deque;
    }

    /** The expiry sweep over all queues, visited in any order. */
    method CheckClients(now: int, broken: set<ClientId>)
      requires Valid()
      modifies this
      ensures Valid() && Contents() == Sweep(old(Contents()), now, checkTime, broken)
    {
      ghost var p := Contents();
      ghost var seen: seq<ClientId> := [];
      var todo := freeClients.Keys;
      while todo != {}
        invariant todo <= p.queues.Keys && SeenAllBut(p, todo, seen)
        invariant freeClients == SweptAllBut(p, todo, now, checkTime, broken)
        invariant clients == CloseExpired(p.clients, seen, now, checkTime)
      {
        SomePeer(todo);
        var peer :| peer in todo;
        var kept := SweepQueue(freeClients[peer], now, broken, p.clients, seen);
        freeClients := freeClients[peer := kept];
        OneQueueMore(p, todo, seen, peer, now, checkTime, broken);
        todo, seen := todo - {peer}, seen + p.queues[peer];
      }
      SweptStocked(p, now, checkTime, broken);
      SeenAll(p, seen, now, checkTime, broken);
    }
  }

  lemma SomePeer(todo: set<int>)
    requires todo != {}
    ensures exists peer :: peer in todo
  {
    assert (forall peer :: peer !in todo) ==> todo == {};
  }

  /** The queues with all but the peers in `todo` swept. */
  ghost function SweptAllBut(p: Pool, todo: set<int>, now: int, time: int, broken: set<ClientId>): Queues
    requires Stocked(p)
  {
    map peer | peer in p.queues ::
      if peer in todo then p.queues[peer] else Swept(p.queues[peer], p.clients, now, time, broken)
  }

  ghost predicate SeenAllBut(p: Pool, todo: set<int>, seen: seq<ClientId>) {
    && (forall c | c in seen :: c in PooledIds(p))
    && (forall peer, c | peer in p.queues && peer !in todo && c in p.queues[peer] :: c in seen)
  }

  lemma OneQueueMore(p: Pool, todo: set<int>, seen: seq<ClientId>, peer: int, now: int, time: int,
      broken: set<ClientId>)
    requires Stocked(p) && SeenAllBut(p, todo, seen) && peer in todo && peer in p.queues
    ensures SeenAllBut(p, todo - {peer}, seen + p.queues[peer])
    ensures SweptAllBut(p, todo, now, time, broken)[peer := Swept(p.queues[peer], p.clients, now, time, broken)]
            == SweptAllBut(p, todo - {peer}, now, time, broken)
  {
  }

  lemma SeenAll(p: Pool, seen: seq<ClientId>, now: int, time: int, broken: set<ClientId>)
    requires Stocked(p) && SeenAllBut(p, {}, seen)
    ensures Pool(SweptAllBut(p, {}, now, time, broken), CloseExpired(p.clients, seen, now, time)) ==
        Sweep(p, now, time, broken)
  {
    assert forall c :: c in seen <==> c in PooledIds(p);
  }

  // ---------------------------------------------------------------------------------------------
  // What checkout and sweep do to a queue
  // ---------------------------------------------------------------------------------------------

  ghost predicate Acceptable(clients: Clients, c: ClientId, broken: set<ClientId>, maxTimes: int) {
    c in clients && !clients[c].closed && (maxTimes > 0 ==> clients[c].times < maxTimes) && c !in broken
  }

  ghost predicate Distinct(queue: seq<ClientId>) {
    forall i, j | 0 <= i < j < |queue| :: queue[i] != queue[j]
  }

  /** The position at which `Take` stops. */
  ghost function Stop(queue: seq<ClientId>, t: Taken): int {
    |queue| - |t.rest| - (if t.client.Some? then 1 else 0)
  }

  /** Inspecting a client that is not handed out makes no client acceptable and none unacceptable. */
  lemma RejectedStaysRejected(clients: Clients, c: ClientId, broken: set<ClientId>, maxTimes: int)
    requires c in clients && !Inspect(clients, c, broken, maxTimes).0
    ensures forall d :: Acceptable(Inspect(clients, c, broken, maxTimes).1, d, broken, maxTimes)
                        <==> Acceptable(clients, d, broken, maxTimes)
  {
  }

  /** The old queue is rejected ++ [returned] ++ remaining, and the returned client is the first one that
      is open, within its use limit and not broken. */
  lemma {:induction false} TakeFindsFirst(queue: seq<ClientId>, clients: Clients, broken: set<ClientId>, maxTimes: int)
    requires forall c | c in queue :: c in clients
    ensures var t := Take(queue, clients, broken, maxTimes);
            var k := Stop(queue, t);
            && 0 <= k <= |queue|
            && (forall i | 0 <= i < k :: !Acceptable(clients, queue[i], broken, maxTimes))
            && (t.client.None? ==> k == |queue|)
            && (t.client.Some? ==> k < |queue| && queue[k] == t.client.value && t.rest == queue[k + 1..]
                                   && Acceptable(clients, queue[k], broken, maxTimes))
  {
    if queue != [] {
      var (good, clients') := Inspect(clients, queue[0], broken, maxTimes);
      if !good {
        RejectedStaysRejected(clients, queue[0], broken, maxTimes);
        TakeFindsFirst(queue[1..], clients', broken, maxTimes);
        var t := Take(queue, clients, broken, maxTimes);
        var k := Stop(queue, t);
        assert Stop(queue[1..], t) == k - 1;
        forall i | 0 <= i < k ensures !Acceptable(clients, queue[i], broken, maxTimes) {
          if i > 0 {
            assert queue[i] == queue[1..][i - 1];
          }
        }
      }
    }
  }

  /** Checkout touches only the clients it pops: it never changes a peer or a touch time, only counts a use
      and closes a client that is over the limit. */
  lemma {:induction false} TakeEffect(queue: seq<ClientId>, clients: Clients, broken: set<ClientId>, maxTimes: int,
      d: ClientId)
    requires forall c | c in queue :: c in clients
    requires d in clients
    ensures var t := Take(queue, clients, broken, maxTimes);
            && t.clients.Keys == clients.Keys
            && |t.rest| <= |queue| && t.rest == queue[|queue| - |t.rest|..]
            && t.clients[d].peer == clients[d].peer && t.clients[d].touched == clients[d].touched
            && t.clients[d].times >= clients[d].times
            && (d !in queue ==> t.clients[d] == clients[d])
            && (t.clients[d].closed && !clients[d].closed ==>
                  d in queue && maxTimes > 0 && t.clients[d].times > maxTimes)
            && (t.client.Some? ==> t.client.value in queue)
            && (t.client == Some(d) && maxTimes > 0 ==> clients[d].times < t.clients[d].times <= maxTimes)
  {
    if queue != [] {
      var (good, clients') := Inspect(clients, queue[0], broken, maxTimes);
      if !good {
        TakeEffect(queue[1..], clients', broken, maxTimes, d);
      }
    }
  }

  /** A client that was popped `n` times: an open one counts its uses until it is over the limit, and is closed then. */
  function Popped(client: Client, n: nat, maxTimes: int): Client {
    if n == 0 || client.closed || maxTimes <= 0 then client
    else
      var most := (if client.times > maxTimes then client.times else maxTimes) + 1;
      var times := if client.times + n < most then client.times + n else most;
      client.(times := times, closed := times > maxTimes)
  }

  lemma InspectPops(clients: Clients, c: ClientId, broken: set<ClientId>, maxTimes: int, d: ClientId)
    requires c in clients && d in clients
    ensures var clients' := Inspect(clients, c, broken, maxTimes).1;
            d in clients' && clients'[d] == Popped(clients[d], if d == c then 1 else 0, maxTimes)
  {
  }

  lemma PopsAdd(client: Client, m: nat, n: nat, maxTimes: int)
    ensures Popped(Popped(client, m, maxTimes), n, maxTimes) == Popped(client, m + n, maxTimes)
  {
  }

  lemma FirstCounts(queue: seq<ClientId>, n: nat, d: ClientId)
    requires 0 < n <= |queue|
    ensures multiset(queue[..n])[d] == (if d == queue[0] then 1 else 0) + multiset(queue[1..][..n - 1])[d]
  {
    assert queue[..n] == [queue[0]] + queue[1..][..n - 1];
  }

  /** Exactly what checkout does to the store, even if a client waits several times. */
  lemma {:induction false} TakeCounts(queue: seq<ClientId>, clients: Clients, broken: set<ClientId>, maxTimes: int,
      d: ClientId)
    requires forall c | c in queue :: c in clients
    requires d in clients
    ensures var t := Take(queue, clients, broken, maxTimes);
            && d in t.clients && |t.rest| <= |queue|
            && t.clients[d] == Popped(clients[d], multiset(queue[..|queue| - |t.rest|])[d], maxTimes)
  {
    if queue != [] {
      var (good, clients') := Inspect(clients, queue[0], broken, maxTimes);
      InspectPops(clients, queue[0], broken, maxTimes, d);
      var t := Take(queue, clients, broken, maxTimes);
      if good {
        FirstCounts(queue, 1, d);
      } else {
        TakeCounts(queue[1..], clients', broken, maxTimes, d);
        var n := |queue| - |t.rest|;
        FirstCounts(queue, n, d);
        PopsAdd(clients[d], if d == queue[0] then 1 else 0, multiset(queue[1..][..n - 1])[d], maxTimes);
      }
    }
  }

  lemma {:induction false} SweptEffect(queue: seq<ClientId>, clients: Clients, now: int, time: int,
      broken: set<ClientId>)
    requires forall c | c in queue :: c in clients
    ensures forall c ::
              c in Swept(queue, clients, now, time, broken) <==> c in queue && Keeps(clients, c, now, time, broken)
    ensures Distinct(queue) ==> Distinct(Swept(queue, clients, now, time, broken))
  {
    if queue != [] {
      SweptEffect(queue[1..], clients, now, time, broken);
      if Distinct(queue) {
        assert Distinct(queue[1..]);
        assert queue[0] !in queue[1..];
      }
    }
  }

  lemma SweptStocked(p: Pool, now: int, time: int, broken: set<ClientId>)
    requires Stocked(p)
    ensures Stocked(Sweep(p, now, time, broken))
  {
    forall peer, c | peer in p.queues && c in Sweep(p, now, time, broken).queues[peer] ensures c in p.clients {
      SweptEffect(p.queues[peer], p.clients, now, time, broken);
    }
  }

  /** Whoever survives a sweep was touched less than `time` ago, is open and not broken; and whoever is so survives,
      as often as it waited. */
  lemma {:induction false} WhoSurvives(queue: seq<ClientId>, clients: Clients, now: int, time: int,
      broken: set<ClientId>, c: ClientId)
    requires forall d | d in queue :: d in clients
    ensures multiset(Swept(queue, clients, now, time, broken))[c] ==
            if c in queue && now - clients[c].touched < time && !clients[c].closed && c !in broken
            then multiset(queue)[c] else 0
  {
    if queue != [] {
      WhoSurvives(queue[1..], clients, now, time, broken, c);
      assert queue == [queue[0]] + queue[1..];
    }
  }
}
