/** Which servers count as alive: failures, the recovery tick, and the lookups. */
module LoadBalancer {
  import opened ModStates

  type Ip = string

  /** The three sets of the balancer and its configured servers. */
  datatype Servers = Servers(ips: seq<Ip>, alive: set<Ip>, good: set<Ip>, bad: set<Ip>)

  datatype Event = Fail(ip: Ip) | Tick

  function Configured(ips: seq<Ip>): set<Ip> {
    set ip | ip in ips
  }

  function Start(ips: seq<Ip>): Servers {
    Servers(ips, Configured(ips), {}, {})
  }

  function Step(s: Servers, e: Event): Servers {
    match e
    case Fail(ip) => s.(alive := s.alive - {ip}, bad := s.bad + {ip})
    case Tick => s.(alive := s.alive + s.good, good := s.bad, bad := {})
  }

  function Run(ips: seq<Ip>, events: seq<Event>): Servers {
    if events == [] then Start(ips) else Step(Run(ips, events[..|events| - 1]), events[|events| - 1])
  }

  // ---------------------------------------------------------------------------------------------
  // History
  // ---------------------------------------------------------------------------------------------

  /** The servers that failed in the window `k` ticks back; window 0 is the current one. */
  function Window(events: seq<Event>, k: nat): set<Ip>
    decreases |events|
  {
    if events == [] then {}
    else
      var before := events[..|events| - 1];
      match events[|events| - 1]
      case Tick => if k == 0 then {} else Window(before, k - 1)
      case Fail(ip) => Window(before, k) + (if k == 0 then {ip} else {})
  }

  /** The servers that failed in window `k` or an older one. */
  function Older(events: seq<Event>, k: nat): set<Ip>
    decreases |events|
  {
    if events == [] then {}
    else
      var before := events[..|events| - 1];
      match events[|events| - 1]
      case Tick => Older(before, if k == 0 then 0 else k - 1)
      case Fail(ip) => Older(before, k) + (if k == 0 then {ip} else {})
  }

  lemma {:induction false} OlderUnfolds(events: seq<Event>, k: nat)
    ensures Older(events, k) == Window(events, k) + Older(events, k + 1)
    decreases |events|
  {
    if events != [] {
      var before := events[..|events| - 1];
      OlderUnfolds(before, k);
      if k > 0 { OlderUnfolds(before, k - 1); }
    }
  }

  predicate FailedIn(events: seq<Event>, w: nat, ip: Ip) {
    ip in Window(events, w)
  }

  lemma {:induction false} OlderMeansSomeWindow(events: seq<Event>, k: nat, ip: Ip)
    ensures ip in Older(events, k) <==> exists w: nat :: k <= w && FailedIn(events, w, ip)
    decreases |events|
  {
    if ip in Older(events, k) {
      var before := events[..|events| - 1];
      match events[|events| - 1] {
        case Tick =>
          OlderMeansSomeWindow(before, if k == 0 then 0 else k - 1, ip);
          var w: nat :| (if k == 0 then 0 else k - 1) <= w && FailedIn(before, w, ip);
          assert FailedIn(events, w + 1, ip);
        case Fail(f) =>
          if ip in Older(before, k) {
            OlderMeansSomeWindow(before, k, ip);
            var w: nat :| k <= w && FailedIn(before, w, ip);
            assert FailedIn(events, w, ip);
          } else {
            assert FailedIn(events, 0, ip);
          }
      }
    }
    if w: nat :| k <= w && FailedIn(events, w, ip) {
      WindowIsOlder(events, w, ip, k);
    }
  }

  lemma {:induction false} WindowIsOlder(events: seq<Event>, w: nat, ip: Ip, k: nat)
    requires ip in Window(events, w) && k <= w
    ensures ip in Older(events, k)
    decreases w - k
  {
    OlderUnfolds(events, k);
    if k < w {
      WindowIsOlder(events, w, ip, k + 1);
    }
  }

  /** Alive by history: not failed in the current window, and not in the one before unless it had failed in
      the window before that already; a server that is not configured must have failed two windows ago or earlier. */
  ghost predicate AliveByHistory(ips: seq<Ip>, events: seq<Event>, ip: Ip) {
    && ip !in Window(events, 0)
    && (ip in Window(events, 1) ==> ip in Window(events, 2))
    && (ip in ips || ip in Older(events, 2))
  }

  /** The three sets are functions of the failure history alone. */
  lemma {:induction false} HistoryTheorem(ips: seq<Ip>, events: seq<Event>)
    ensures var s := Run(ips, events);
            && s.ips == ips
            && s.bad == Window(events, 0)
            && s.good == Window(events, 1)
            && forall ip :: ip in s.alive <==> AliveByHistory(ips, events, ip)
    decreases |events|
  {
    if events != [] {
      var before := events[..|events| - 1];
      HistoryTheorem(ips, before);
      OlderUnfolds(before, 1);
      OlderUnfolds(before, 2);
      var s, s' := Run(ips, before), Run(ips, events);
      forall ip ensures ip in s'.alive <==> AliveByHistory(ips, events, ip) {
        match events[|events| - 1] {
          case Fail(f) =>
            assert ip in s'.alive <==> ip in s.alive && ip != f;
          case Tick =>
            assert ip in s'.alive <==> ip in s.alive || ip in s.good;
            assert ip in Older(events, 2) <==> ip in Older(before, 1);
        }
      }
    }
  }

  /** Alive and bad are disjoint, and every configured server is in one of the three sets. */
  lemma {:induction false} EveryServerIsSomewhere(ips: seq<Ip>, events: seq<Event>)
    ensures var s := Run(ips, events);
            && s.alive !! s.bad
            && forall ip | ip in ips :: ip in s.alive || ip in s.bad || ip in s.good
  {
    HistoryTheorem(ips, events);
  }

  lemma RunOneMore(ips: seq<Ip>, events: seq<Event>, e: Event)
    ensures Run(ips, events + [e]) == Step(Run(ips, events), e)
    ensures e == Tick ==> forall k: nat :: Window(events + [e], k) == if k == 0 then {} else Window(events, k - 1)
  {
    assert (events + [e])[..|events|] == events;
  }

  /** Two ticks without a failure bring every configured server back. */
  lemma TwoQuietTicksRestore(ips: seq<Ip>, events: seq<Event>)
    ensures var s := Run(ips, events + [Tick] + [Tick]);
            s.bad == {} && s.good == {} && forall ip | ip in ips :: ip in s.alive
  {
    RunOneMore(ips, events, Tick);
    RunOneMore(ips, events + [Tick], Tick);
    HistoryTheorem(ips, events + [Tick] + [Tick]);
  }

  /** One tick is enough exactly when nothing failed in the current window that had not failed in the one before. */
  lemma OneQuietTickRestores(ips: seq<Ip>, events: seq<Event>)
    ensures var s := Run(ips, events + [Tick]);
            (forall ip | ip in ips :: ip in s.alive)
            <==> forall ip | ip in ips && ip in Window(events, 0) :: ip in Window(events, 1)
  {
    RunOneMore(ips, events, Tick);
    HistoryTheorem(ips, events + [Tick]);
    var s, w0, w1 := Run(ips, events + [Tick]), Window(events, 0), Window(events, 1);
    assert forall ip :: ip in Window(events + [Tick], 1) <==> ip in w0;
    assert forall ip :: ip in Window(events + [Tick], 2) <==> ip in w1;
    assert forall ip | ip in ips :: ip in s.alive <==> (ip in w0 ==> ip in w1);
  }

  // ---------------------------------------------------------------------------------------------
  // The balancer object
  // ---------------------------------------------------------------------------------------------

  const SIZE_T_MODULUS: nat := 0x1_0000_0000_0000_0000

  /** A 32-bit signed integer converted to the unsigned 64-bit type of container sizes. */
  function ToSize(i: int): (size: nat)
    requires -0x8000_0000 <= i < 0x8000_0000
    ensures size < 0x1_0000_0000_0000_0000
    ensures i >= 0 ==> size == i
    ensures i < 0 ==> size - i == 0x1_0000_0000_0000_0000
  {
    if i < 0 then i + SIZE_T_MODULUS else i
  }

  class Balancer {
    const port: nat
    var ips: seq<Ip>
    var alive: set<Ip>
    var good: set<Ip>
    var bad: set<Ip>

    function Contents(): Servers
      reads this
    {
      Servers(ips, alive, good, bad)
    }

    constructor (ips: seq<Ip>, port: nat)
      ensures Contents() == Start(ips) && this.port == port
    {
      this.ips, this.port := ips, port;
      alive, good, bad := {}, {}, {};
      new;
      var k := 0;
      while k < |ips|
        invariant k <= |ips| && alive == Configured(ips[..k]) && good == {} && bad == {} && this.ips == ips
      {
        alive := alive + {ips[k]};
        k := k + 1;
      }
      assert ips[..k] == ips;
    }

    method ClearBadIps()
      modifies this
      ensures Contents() == Step(old(Contents()), Tick)
    {
      var todo := good;
      while todo != {}
        invariant todo <= good && alive == old(alive) + (good - todo)
        invariant good == old(good) && bad == old(bad) && ips == old(ips)
      {
        SomeIp(todo);
        var ip :| ip in todo;
        alive, todo := alive + {ip}, todo - {ip};
      }
      good, bad := bad, {};
    }

    method ServerConnectFail(ip: Ip)
      modifies this
      ensures Contents() == Step(old(Contents()), Fail(ip))
    {
      alive := alive - {ip};
      bad := bad + {ip};
    }

    /** Refuses only servers in `bad`; `ips` has fewer than 2^31 entries, so the index fits an `int`. */
    method GetAliveIpByHash(hash: int) returns (found: Option<(Ip, nat)>)
      requires -0x8000_0000 <= hash < 0x8000_0000 && |ips| < 0x8000_0000
      ensures ips == [] ==> found == None
      ensures ips != [] ==>
                var index := (if hash >= 0 then hash else 0x1_0000_0000_0000_0000 + hash) % |ips|;
                found == if ips[index] in bad then None else Some((ips[index], port))
    {
      if ips == [] {
        return None;
      }
      var index := ToSize(hash) % |ips|;
      if ips[index] in bad {
        return None;
      }
      return Some((ips[index], port));
    }

    /** Out of range, also when negative, gives the empty string. */
    method GetIpByIndex(index: int) returns (ip: Ip)
      requires -0x8000_0000 <= index < 0x8000_0000 && |ips| < 0x8000_0000
      ensures ip == if 0 <= index < |ips| then ips[index] else ""
    {
      if ToSize(index) >= |ips| {
        return "";
      }
      ip := ips[index];
    }

    /** `order` is the order in which the table of alive servers happens to be iterated, `random` a random number. */
    method GetAliveIpRandom(order: seq<Ip>, random: nat) returns (found: Option<(Ip, nat)>)
      requires Lists(order, alive)
      ensures found.Some? <==> alive != {}
      ensures found.Some? ==> found.value.0 in alive && found.value == (order[random % |order|], port)
    {
      found := None;
      ListsSize(order, alive);
      if |alive| != 0 {
        var i, n := 0, random % |alive|;
        var it := 0;
        while i < n
          invariant i <= n && it == i
        {
          it := it + 1;
          i := i + 1;
        }
        if it < |order| {
          assert order[it] in order;
          found := Some((order[it], port));
        }
      }
    }
  }

  lemma SomeIp(todo: set<Ip>)
    requires todo != {}
    ensures exists ip :: ip in todo
  {
    assert (forall ip :: ip !in todo) ==> todo == {};
  }

  /** `order` lists `members`, each once. */
  ghost predicate Lists(order: seq<Ip>, members: set<Ip>) {
    && (forall ip :: ip in order <==> ip in members)
    && forall i, j | 0 <= i < j < |order| :: order[i] != order[j]
  }

  lemma {:induction false} ListsSize(order: seq<Ip>, members: set<Ip>)
    requires Lists(order, members)
    ensures |order| == |members|
    decreases |order|
  {
    if order == [] {
      assert members == {};
    } else {
      var last := |order| - 1;
      assert order[last] in order && order[last] in members;
      var before := order[..last];
      forall ip ensures ip in before <==> ip in members - {order[last]} {
        if ip in members && ip != order[last] {
          var k :| 0 <= k < |order| && order[k] == ip;
          assert before[k] == ip;
        }
        if ip in before {
          var k :| 0 <= k < |before| && before[k] == ip;
          assert order[k] == ip && ip in order;
        }
      }
      ListsSize(before, members - {order[last]});
    }
  }

  /** Every alive server can be drawn. */
  lemma RandomReachesAll(order: seq<Ip>, members: set<Ip>, ip: Ip)
    requires Lists(order, members) && ip in members
    ensures exists random: nat :: random < |order| && order[random % |order|] == ip
  {
    var k :| 0 <= k < |order| && order[k] == ip;
    assert k % |order| == k;
  }

  // ---------------------------------------------------------------------------------------------
  // Where the lookups and the sets disagree
  // ---------------------------------------------------------------------------------------------

  /** The lookup by hash accepts a configured server that is not alive exactly while that server recovers:
      it failed in the window before, not in the one before that, and not in the current one. */
  lemma HashAcceptsRecovering(ips: seq<Ip>, events: seq<Event>, ip: Ip)
    requires ip in ips
    ensures var s := Run(ips, events);
            ip !in s.bad && ip !in s.alive
            <==> ip !in Window(events, 0) && ip in Window(events, 1) && ip !in Window(events, 2)
  {
    HistoryTheorem(ips, events);
  }

  /** A server that was never configured becomes alive exactly by failing, and then being left alone. */
  lemma StrangersBecomeAlive(ips: seq<Ip>, events: seq<Event>, ip: Ip)
    requires ip !in ips
    ensures ip in Run(ips, events).alive
            <==> (ip in Older(events, 2) && ip !in Window(events, 0)
                  && (ip in Window(events, 1) ==> ip in Window(events, 2)))
  {
    HistoryTheorem(ips, events);
  }

  /** The recovering servers that are bad as well are those that failed in the current and the last window; those
      that are alive as well failed in the last two before the current one. */
  lemma {:induction false} WhenSetsOverlap(ips: seq<Ip>, events: seq<Event>)
    ensures var s := Run(ips, events); var w0, w1, w2 := Window(events, 0), Window(events, 1), Window(events, 2);
            s.good * s.bad == w0 * w1 && s.good * s.alive == w1 * w2 - w0
  {
    HistoryTheorem(ips, events);
    OlderUnfolds(events, 2);
  }

  lemma RunOf(ips: seq<Ip>, a: Event, b: Event, c: Event, d: Event)
    ensures Run(ips, [a, b]) == Step(Step(Start(ips), a), b)
    ensures Run(ips, [a, b, c]) == Step(Step(Step(Start(ips), a), b), c)
    ensures Run(ips, [a, b, c, d]) == Step(Step(Step(Step(Start(ips), a), b), c), d)
  {
    assert [a, b, c, d][..3] == [a, b, c] && [a, b, c][..2] == [a, b] && [a, b][..1] == [a] && [a][..0] == [];
    assert Run(ips, [a]) == Step(Run(ips, []), a);
    assert Run(ips, [a, b]) == Step(Run(ips, [a]), b);
    assert Run(ips, [a, b, c]) == Step(Run(ips, [a, b]), c);
  }

  /** Both overlaps occur. */
  lemma SetsOverlap(ip: Ip)
    ensures var s := Run([ip], [Fail(ip), Tick, Fail(ip), Tick]); ip in s.good && ip in s.alive
    ensures var s := Run([ip], [Fail(ip), Tick, Fail(ip)]); ip in s.good && ip in s.bad
  {
    RunOf([ip], Fail(ip), Tick, Fail(ip), Tick);
  }

  /** After one failure and one tick a server is accepted by hash and not alive. */
  lemma HashCanAcceptRecovering(ip: Ip)
    ensures var s := Run([ip], [Fail(ip), Tick]); ip !in s.bad && ip !in s.alive
  {
    RunOf([ip], Fail(ip), Tick, Tick, Tick);
  }

  /** A balancer without any configured server, and one alive. */
  lemma StrangerCanBeAlive(ip: Ip)
    ensures ip in Run([], [Fail(ip), Tick, Tick]).alive
  {
    RunOf([], Fail(ip), Tick, Tick, Tick);
  }
}
