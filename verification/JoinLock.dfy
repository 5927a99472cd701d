/**
 A join module at the granularity of its lock: `n` arrivals, each of which locks, sets the failed flag,
 counts, unlocks, compares its own count and, when it matches, reads the flag without the lock.
 */
module JoinLock {
  import opened ModStates

  /** How far an arrival's call of `run` has come.  `count` is the local copy made under the lock. */
  datatype Pc =
    | Outside | Locked | Flagged | Counted(count: nat) | Unlocked(count: nat)
    | Matched(count: nat) | Armed(count: nat, read: ModState) | Passed(count: nat)

  /** `order` is history: the arrivals in the order of their locked sections. */
  datatype Shared = Shared(pcs: seq<Pc>, holder: Option<nat>, joined: nat, failed: bool, order: seq<nat>)

  /** `lasts[i]` is the state arrival `i` comes with; `active` is what `get_active_join_num` answers. */
  datatype Setup = Setup(lasts: seq<ModState>, active: nat)

  ghost function Init(u: Setup): Shared {
    Shared(seq(|u.lasts|, _ => Outside), None, 0, false, [])
  }

  predicate Finished(pc: Pc) {
    pc.Armed? || pc.Passed?
  }

  predicate Enabled(s: Shared, i: nat) {
    i < |s.pcs| && !Finished(s.pcs[i]) && (s.pcs[i].Outside? ==> s.holder.None?)
  }

  function Apply(u: Setup, s: Shared, i: nat): Shared
    requires Enabled(s, i) && |s.pcs| == |u.lasts|
  {
    match s.pcs[i]
    case Outside => s.(pcs := s.pcs[i := Locked], holder := Some(i))
    case Locked => s.(pcs := s.pcs[i := Flagged], failed := s.failed || u.lasts[i] != MOD_SUCCEED)
    case Flagged =>
      var count := Increment16(s.joined);
      s.(pcs := s.pcs[i := Counted(count)], joined := count, order := s.order + [i])
    case Counted(count) => s.(pcs := s.pcs[i := Unlocked(count)], holder := None)
    case Unlocked(count) => s.(pcs := s.pcs[i := if count == u.active then Matched(count) else Passed(count)])
    case Matched(count) => s.(pcs := s.pcs[i := Armed(count, if s.failed then MOD_FAILED else MOD_SUCCEED)])
  }

  ghost predicate Schedule(u: Setup, steps: seq<nat>)
    decreases |steps|, 0
  {
    steps == [] || (
      && Schedule(u, steps[..|steps| - 1])
      && Enabled(Exec(u, steps[..|steps| - 1]), steps[|steps| - 1]))
  }

  ghost function Exec(u: Setup, steps: seq<nat>): (s: Shared)
    requires Schedule(u, steps)
    ensures |s.pcs| == |u.lasts|
    decreases |steps|, 1
  {
    if steps == [] then Init(u) else Apply(u, Exec(u, steps[..|steps| - 1]), steps[|steps| - 1])
  }

  // ---------------------------------------------------------------------------------------------
  // The invariant
  // ---------------------------------------------------------------------------------------------

  /** The value of a 16-bit counter after `p` increments. */
  function Wrapped(p: nat): nat {
    if p == 0 then 0 else Increment16(Wrapped(p - 1))
  }

  predicate Inside(pc: Pc) {
    pc.Locked? || pc.Flagged? || pc.Counted?
  }

  predicate HasFlagged(pc: Pc) {
    !pc.Outside? && !pc.Locked?
  }

  predicate HasCounted(pc: Pc) {
    HasFlagged(pc) && !pc.Flagged?
  }

  ghost predicate FlagOk(u: Setup, s: Shared)
    requires |s.pcs| == |u.lasts|
  {
    s.failed <==> exists i :: 0 <= i < |s.pcs| && HasFlagged(s.pcs[i]) && u.lasts[i] != MOD_SUCCEED
  }

  ghost predicate OrderOk(s: Shared) {
    && (forall p | 0 <= p < |s.order| :: s.order[p] < |s.pcs| && HasCounted(s.pcs[s.order[p]])
         && s.pcs[s.order[p]].count == Wrapped(p + 1))
    && (forall p, q | 0 <= p < q < |s.order| :: s.order[p] != s.order[q])
    && (forall i | 0 <= i < |s.pcs| && HasCounted(s.pcs[i]) :: i in s.order)
    && s.joined == Wrapped(|s.order|)
  }

  ghost predicate LockOk(s: Shared) {
    && (s.holder.Some? ==> s.holder.value < |s.pcs|)
    && forall i | 0 <= i < |s.pcs| :: Inside(s.pcs[i]) <==> s.holder == Some(i)
  }

  /** Who has matched, and what the flag said to those who read it: some of the failures, and none invented. */
  ghost predicate MatchOk(u: Setup, s: Shared)
    requires |s.pcs| == |u.lasts|
  {
    forall i | 0 <= i < |s.pcs| ::
      && ((s.pcs[i].Matched? || s.pcs[i].Armed?) ==> s.pcs[i].count == u.active)
      && (s.pcs[i].Passed? ==> s.pcs[i].count != u.active)
      && (s.pcs[i].Armed? ==> s.pcs[i].read == MOD_FAILED || s.pcs[i].read == MOD_SUCCEED)
  }

  /** As many arrivals as are waited for. */
  predicate Matching(u: Setup) {
    |u.lasts| == u.active && 1 <= u.active < UINT16_MODULUS
  }

  /** Then whoever reads the flag does so after everyone has counted, and it never changes again. */
  ghost predicate ReadOk(u: Setup, s: Shared) {
    Matching(u) ==> forall i | 0 <= i < |s.pcs| && s.pcs[i].Armed? ::
      |s.order| == |u.lasts| && s.pcs[i].read == if s.failed then MOD_FAILED else MOD_SUCCEED
  }

  ghost predicate Inv(u: Setup, s: Shared) {
    |s.pcs| == |u.lasts| && FlagOk(u, s) && OrderOk(s) && LockOk(s) && MatchOk(u, s) && ReadOk(u, s)
  }

  lemma CountKeepsOrder(u: Setup, s: Shared, i: nat, s': Shared)
    requires |s.pcs| == |u.lasts| && OrderOk(s) && Enabled(s, i) && s.pcs[i].Flagged? && s' == Apply(u, s, i)
    ensures OrderOk(s')
  {
    var n := |s.order|;
    assert i !in s.order;
    forall p | 0 <= p < |s'.order|
      ensures s'.order[p] < |s'.pcs| && HasCounted(s'.pcs[s'.order[p]]) && s'.pcs[s'.order[p]].count == Wrapped(p + 1)
    {
      if p < n { assert s'.order[p] == s.order[p] && s.order[p] != i; }
    }
    forall k | 0 <= k < |s'.pcs| && HasCounted(s'.pcs[k]) ensures k in s'.order {
      if k == i { assert s'.order[n] == i; } else { assert k in s.order; }
    }
  }

  lemma FlagStep(u: Setup, s: Shared, i: nat, s': Shared)
    requires |s.pcs| == |u.lasts| && FlagOk(u, s) && Enabled(s, i) && s' == Apply(u, s, i)
    ensures FlagOk(u, s')
  {
    if s.failed {
      var k :| 0 <= k < |s.pcs| && HasFlagged(s.pcs[k]) && u.lasts[k] != MOD_SUCCEED;
      assert HasFlagged(s'.pcs[k]);
    }
    if s'.failed && !s.failed {
      assert HasFlagged(s'.pcs[i]);
    }
  }

  /** An arrival that matches is the last of as many as are waited for. */
  lemma LastOne(u: Setup, s: Shared, i: nat)
    requires |s.pcs| == |u.lasts| && OrderOk(s) && Matching(u)
    requires i < |s.pcs| && HasCounted(s.pcs[i]) && s.pcs[i].count == u.active
    ensures |s.order| == |u.lasts| && s.order[u.active - 1] == i
  {
    assert i in s.order;
    var q :| 0 <= q < |s.order| && s.order[q] == i;
    AtMost(s.order, |u.lasts|);
    WrappedBelow(q + 1);
  }

  lemma ReadStep(u: Setup, s: Shared, i: nat, s': Shared)
    requires |s.pcs| == |u.lasts| && OrderOk(s) && MatchOk(u, s) && ReadOk(u, s) && Enabled(s, i)
        && s' == Apply(u, s, i)
    ensures ReadOk(u, s')
  {
    if Matching(u) {
      if s.pcs[i].Matched? {
        LastOne(u, s, i);
      } else if k :| 0 <= k < |s.pcs| && s.pcs[k].Armed? {
        EveryoneIn(s.order, |u.lasts|, i);
      }
    }
  }

  lemma StepKeepsInv(u: Setup, s: Shared, i: nat, s': Shared)
    requires Inv(u, s) && Enabled(s, i) && s' == Apply(u, s, i)
    ensures Inv(u, s')
  {
    FlagStep(u, s, i, s');
    if s.pcs[i].Flagged? {
      CountKeepsOrder(u, s, i, s');
    } else {
      OtherKeepsOrder(u, s, i, s');
    }
    ReadStep(u, s, i, s');
  }

  lemma OtherKeepsOrder(u: Setup, s: Shared, i: nat, s': Shared)
    requires |s.pcs| == |u.lasts| && OrderOk(s) && Enabled(s, i) && !s.pcs[i].Flagged? && s' == Apply(u, s, i)
    ensures OrderOk(s')
  {
    assert forall k | 0 <= k < |s.pcs| :: HasCounted(s'.pcs[k]) == HasCounted(s.pcs[k]);
    assert HasCounted(s.pcs[i]) ==> s'.pcs[i].count == s.pcs[i].count;
  }

  lemma {:induction false} ReachableInv(u: Setup, steps: seq<nat>)
    requires Schedule(u, steps)
    ensures Inv(u, Exec(u, steps))
    decreases |steps|
  {
    if steps != [] {
      var last := |steps| - 1;
      ReachableInv(u, steps[..last]);
      StepKeepsInv(u, Exec(u, steps[..last]), steps[last], Exec(u, steps));
    }
  }

  // ---------------------------------------------------------------------------------------------
  // Results
  // ---------------------------------------------------------------------------------------------

  ghost predicate AllDone(s: Shared) {
    forall i | 0 <= i < |s.pcs| :: Finished(s.pcs[i])
  }

  /** The lock blocks nobody for good: until all arrivals are through, one of them can go on. */
  lemma SomeArrivalCanGoOn(u: Setup, steps: seq<nat>)
    requires Schedule(u, steps) && !AllDone(Exec(u, steps))
    ensures exists i: nat :: Enabled(Exec(u, steps), i)
  {
    ReachableInv(u, steps);
    var s := Exec(u, steps);
    if s.holder.Some? {
      assert Enabled(s, s.holder.value);
    } else {
      var i :| 0 <= i < |s.pcs| && !Finished(s.pcs[i]);
      assert Enabled(s, i);
    }
  }

  /** An arrival schedules the continuation exactly when the position of its locked section, counted from
      one in 16 bits, is the number waited for. */
  lemma WhoSchedules(u: Setup, steps: seq<nat>, p: nat)
    requires Schedule(u, steps) && AllDone(Exec(u, steps)) && p < |Exec(u, steps).order|
    ensures var s := Exec(u, steps);
            s.order[p] < |s.pcs| && (s.pcs[s.order[p]].Armed? <==> Wrapped(p + 1) == u.active)
  {
    ReachableInv(u, steps);
  }

  /** The arrivals that scheduled the continuation. */
  ghost function Schedulers(s: Shared): set<nat> {
    set i: nat | i < |s.pcs| && s.pcs[i].Armed?
  }

  lemma AllCounted(u: Setup, steps: seq<nat>)
    requires Schedule(u, steps) && AllDone(Exec(u, steps))
    ensures |Exec(u, steps).order| == |u.lasts|
  {
    ReachableInv(u, steps);
    var s := Exec(u, steps);
    AtMost(s.order, |u.lasts|);
    forall i: nat | i in Below(|u.lasts|) ensures i in Ids(s.order) {
      assert Finished(s.pcs[i]) && HasCounted(s.pcs[i]) && i in s.order;
    }
    DistinctSize(s.order);
    SubsetSize(Below(|u.lasts|), Ids(s.order));
  }

  /** How many of `n` arrivals find their count equal to `a`. */
  function Hits(n: nat, a: nat): nat {
    if n == 0 then 0 else Hits(n - 1, a) + if Wrapped(n) == a then 1 else 0
  }

  /** How many of `n` arrivals schedule the continuation: one for every full turn of the 16-bit counter. */
  lemma HowManySchedule(u: Setup, steps: seq<nat>)
    requires Schedule(u, steps) && AllDone(Exec(u, steps)) && 1 <= u.active < UINT16_MODULUS
    ensures var n := |u.lasts|;
            |Schedulers(Exec(u, steps))| == if n < u.active then 0 else 1 + (n - u.active) / UINT16_MODULUS
  {
    ReachableInv(u, steps);
    AllCounted(u, steps);
    var s, a, n := Exec(u, steps), u.active, |u.lasts|;
    forall i | i in Schedulers(s) ensures exists p: nat :: p < n && s.order[p] == i && Wrapped(p + 1) == a {
      assert HasCounted(s.pcs[i]) && i in s.order;
    }
    assert forall p: nat | p < n && Wrapped(p + 1) == a :: s.order[p] in Schedulers(s);
    CountHits(s.order, a, Schedulers(s));
    HitsFormula(n, a);
  }

  /** Exactly one does, if and only if `active <= n < active + 65536`. */
  lemma ExactlyOneSchedules(u: Setup, steps: seq<nat>)
    requires Schedule(u, steps) && AllDone(Exec(u, steps)) && 1 <= u.active < UINT16_MODULUS
    ensures |Schedulers(Exec(u, steps))| == 1 <==> u.active <= |u.lasts| < u.active + UINT16_MODULUS
  {
    HowManySchedule(u, steps);
  }

  lemma {:induction false} CountHits(order: seq<nat>, a: nat, hits: set<nat>)
    requires forall p, q | 0 <= p < q < |order| :: order[p] != order[q]
    requires forall i | i in hits :: exists p: nat :: p < |order| && order[p] == i && Wrapped(p + 1) == a
    requires forall p: nat | p < |order| && Wrapped(p + 1) == a :: order[p] in hits
    ensures |hits| == Hits(|order|, a)
  {
    if order == [] {
      assert hits == {};
    } else {
      var last := |order| - 1;
      var front, x := order[..last], order[last];
      forall i | i in hits - {x} ensures exists p: nat :: p < |front| && front[p] == i && Wrapped(p + 1) == a {
        var p: nat :| p < |order| && order[p] == i && Wrapped(p + 1) == a;
        assert front[p] == i;
      }
      forall p: nat | p < |front| && Wrapped(p + 1) == a ensures front[p] in hits - {x} {
        assert front[p] == order[p];
      }
      CountHits(front, a, hits - {x});
      if x in hits {
        var p: nat :| p < |order| && order[p] == x && Wrapped(p + 1) == a;
        assert p == last;
      }
    }
  }

  /** More arrivals than the counter can tell apart: the continuation is scheduled twice. */
  lemma JoinCanScheduleTwice(active: nat) returns (u: Setup, steps: seq<nat>)
    requires 1 <= active < UINT16_MODULUS
    ensures u.active == active && |u.lasts| == active + UINT16_MODULUS
    ensures Schedule(u, steps) && AllDone(Exec(u, steps)) && |Schedulers(Exec(u, steps))| == 2
  {
    u := Setup(seq(active + UINT16_MODULUS, _ => MOD_SUCCEED), active);
    steps := AllCanPass(u, []);
    HowManySchedule(u, steps);
  }

  /** How far an arrival still has to go. */
  function Left(pc: Pc): nat {
    match pc
    case Outside => 6 case Locked => 5 case Flagged => 4 case Counted(_) => 3 case Unlocked(_) => 2 case Matched(_) => 1
    case _ => 0
  }

  function AllLeft(pcs: seq<Pc>): nat {
    if pcs == [] then 0 else Left(pcs[0]) + AllLeft(pcs[1..])
  }

  lemma {:induction false} LeftUpdate(pcs: seq<Pc>, i: nat, pc: Pc)
    requires i < |pcs|
    ensures AllLeft(pcs[i := pc]) == AllLeft(pcs) - Left(pcs[i]) + Left(pc)
  {
    if i > 0 {
      assert pcs[i := pc][1..] == pcs[1..][i - 1 := pc];
      LeftUpdate(pcs[1..], i - 1, pc);
    } else {
      assert pcs[0 := pc][1..] == pcs[1..];
    }
  }

  lemma StepGoesOn(u: Setup, s: Shared, i: nat)
    requires Enabled(s, i) && |s.pcs| == |u.lasts|
    ensures AllLeft(Apply(u, s, i).pcs) < AllLeft(s.pcs)
  {
    LeftUpdate(s.pcs, i, Apply(u, s, i).pcs[i]);
  }

  /** Every schedule can be continued until all arrivals are through. */
  lemma {:induction false} AllCanPass(u: Setup, steps: seq<nat>) returns (more: seq<nat>)
    requires Schedule(u, steps)
    ensures Schedule(u, more) && AllDone(Exec(u, more))
    decreases AllLeft(Exec(u, steps).pcs)
  {
    more := steps;
    if !AllDone(Exec(u, steps)) {
      SomeArrivalCanGoOn(u, steps);
      var i: nat :| Enabled(Exec(u, steps), i);
      more := steps + [i];
      assert more[..|steps|] == steps;
      StepGoesOn(u, Exec(u, steps), i);
      more := AllCanPass(u, more);
    }
  }

  /** With as many arrivals as are waited for, only one schedules the continuation, and the flag it reads
      after unlocking is the disjunction of all the arrivals' failures. */
  lemma JoinReadsEveryFailure(u: Setup, steps: seq<nat>, i: nat)
    requires Schedule(u, steps) && Matching(u) && i < |u.lasts| && Exec(u, steps).pcs[i].Armed?
    ensures var s := Exec(u, steps);
            && (s.pcs[i].read == MOD_FAILED <==> exists k :: 0 <= k < |u.lasts| && u.lasts[k] != MOD_SUCCEED)
            && (s.pcs[i].read == MOD_SUCCEED <==> forall k | 0 <= k < |u.lasts| :: u.lasts[k] == MOD_SUCCEED)
            && (forall k | 0 <= k < |u.lasts| && s.pcs[k].Armed? :: k == i)
  {
    ReachableInv(u, steps);
    var s := Exec(u, steps);
    LastOne(u, s, i);
    forall k | 0 <= k < |u.lasts| && s.pcs[k].Armed? ensures k == i {
      LastOne(u, s, k);
    }
    forall k | 0 <= k < |u.lasts| ensures HasFlagged(s.pcs[k]) {
      EveryoneIn(s.order, |u.lasts|, k);
    }
  }

  // ---------------------------------------------------------------------------------------------
  // Counting
  // ---------------------------------------------------------------------------------------------

  lemma {:induction false} WrappedBelow(p: nat)
    requires p < 2 * UINT16_MODULUS
    ensures Wrapped(p) == if p < UINT16_MODULUS then p else p - UINT16_MODULUS
  {
    if p > 0 {
      WrappedBelow(p - 1);
    }
  }

  /** The counter repeats after a full turn. */
  lemma {:induction false} WrappedRepeats(p: nat)
    ensures Wrapped(p + UINT16_MODULUS) == Wrapped(p)
  {
    if p == 0 {
      WrappedBelow(UINT16_MODULUS);
    } else {
      WrappedRepeats(p - 1);
    }
  }

  lemma {:induction false} FirstTurn(n: nat, a: nat)
    requires 1 <= a < UINT16_MODULUS && n <= UINT16_MODULUS
    ensures Hits(n, a) == if n < a then 0 else 1
  {
    if n > 0 {
      FirstTurn(n - 1, a);
      WrappedBelow(n);
    }
  }

  lemma {:induction false} NextTurn(n: nat, a: nat)
    requires 1 <= a < UINT16_MODULUS
    ensures Hits(n + UINT16_MODULUS, a) == Hits(n, a) + 1
  {
    if n == 0 {
      FirstTurn(UINT16_MODULUS, a);
    } else {
      NextTurn(n - 1, a);
      WrappedRepeats(n);
    }
  }

  lemma {:induction false} HitsFormula(n: nat, a: nat)
    requires 1 <= a < UINT16_MODULUS
    ensures Hits(n, a) == if n < a then 0 else 1 + (n - a) / UINT16_MODULUS
  {
    if n < UINT16_MODULUS {
      FirstTurn(n, a);
    } else {
      HitsFormula(n - UINT16_MODULUS, a);
      NextTurn(n - UINT16_MODULUS, a);
    }
  }

  ghost function Below(n: nat): (all: set<nat>)
    ensures |all| == n && forall i: nat :: i in all <==> i < n
  {
    if n == 0 then {} else Below(n - 1) + {n - 1}
  }

  ghost function Ids(order: seq<nat>): set<nat> {
    set i | i in order
  }

  lemma {:induction false} SubsetSize<T>(a: set<T>, b: set<T>)
    requires a <= b
    ensures |a| <= |b|
  {
    if a != {} {
      var x :| x in a;
      SubsetSize(a - {x}, b - {x});
    }
  }

  lemma {:induction false} DistinctSize(order: seq<nat>)
    requires forall p, q | 0 <= p < q < |order| :: order[p] != order[q]
    ensures |Ids(order)| == |order|
  {
    if order != [] {
      var last := |order| - 1;
      DistinctSize(order[..last]);
      assert Ids(order) == Ids(order[..last]) + {order[last]};
    }
  }

  lemma AtMost(order: seq<nat>, n: nat)
    requires forall p, q | 0 <= p < q < |order| :: order[p] != order[q]
    requires forall p | 0 <= p < |order| :: order[p] < n
    ensures |order| <= n
  {
    DistinctSize(order);
    SubsetSize(Ids(order), Below(n));
  }

  lemma EveryoneIn(order: seq<nat>, n: nat, k: nat)
    requires forall p, q | 0 <= p < q < |order| :: order[p] != order[q]
    requires forall p | 0 <= p < |order| :: order[p] < n
    requires |order| == n && k < n
    ensures k in order
  {
    if k !in order {
      var more := order + [k];
      assert forall p | 0 <= p < |more| :: more[p] < n;
      AtMost(more, n);
    }
  }
}
