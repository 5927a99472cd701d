/** Every schedule of a context is bounded by a number that depends on the modules' outcomes but not on the
    interleaving, so that every request comes to rest. */
module TokenBound {
  import opened ModStates
  import opened TokenEngine
  import opened TokenInvariant
  import opened TokenSteps
  import opened TokenTheorems

  // ---------------------------------------------------------------------------------------------
  // How many steps are left
  // ---------------------------------------------------------------------------------------------

  /** The steps that a token about to run `n` can still cause, up to the join that absorbs it. */
  ghost function RunBudget<N(!new)>(g: Graph<N>, o: N -> Outcome, n: N): nat
    requires WellNested(g)
    decreases g.rank(n), 2, 0
  {
    assert NodeOk(g, n);
    match g.kind(n)
    case Join(_) => 2
    case Simple => 2 + if o(n).Drops? then 0 else LeaveBudget(g, o, n, o(n).state)
    case Fork(_, active) => 1 + BranchesBudget(g, o, n, active) + JoinBudget(g, o, n)
  }

  ghost function BranchesBudget<N(!new)>(g: Graph<N>, o: N -> Outcome, f: N, k: nat): nat
    requires WellNested(g) && g.kind(f).Fork? && k <= g.kind(f).active
    decreases g.rank(f), 1, k
  {
    if k == 0 then 0 else BranchesBudget(g, o, f, k - 1) + BranchBudget(g, o, f, k - 1)
  }

  ghost function BranchBudget<N(!new)>(g: Graph<N>, o: N -> Outcome, f: N, k: nat): nat
    requires WellNested(g) && g.kind(f).Fork? && k < g.kind(f).active
    decreases g.rank(f), 0, 0
  {
    assert NodeOk(g, f);
    assert LeadsOn(g, f, MOD_FORK0 + k, Region.Branch(f, k));
    match g.next(f, MOD_FORK0 + k)
    case None => 3
    case Some(m) => 3 + RunBudget(g, o, m)
  }

  /** What follows once the join of `f` has seen all branches, if it ever does. */
  ghost function JoinBudget<N(!new)>(g: Graph<N>, o: N -> Outcome, f: N): nat
    requires WellNested(g) && g.kind(f).Fork?
    decreases g.rank(f), 1, 0
  {
    assert NodeOk(g, f);
    var all := EvalBranches(g, o, f, g.kind(f).active);
    if all.Arrives? then 1 + LeaveBudget(g, o, g.kind(f).join, all.state) else 0
  }

  ghost function LeaveBudget<N(!new)>(g: Graph<N>, o: N -> Outcome, n: N, st: ModState): nat
    requires WellNested(g) && !g.kind(n).Fork?
    requires g.kind(n).Join? ==> st == MOD_SUCCEED || st == MOD_FAILED
    decreases g.rank(n), 0, 0
  {
    assert NodeOk(g, n);
    if n == g.end then 1
    else
      assert LeadsOn(g, n, st, g.region(n));
      match g.next(n, st)
      case None => 1
      case Some(m) => 1 + RunBudget(g, o, m)
  }

  ghost function PlaceBudget<N(!new)>(g: Graph<N>, o: N -> Outcome, r: Region<N>, p: Place<N>): nat
    requires WellNested(g) && PlaceOk(g, r, p)
  {
    match p
    case Run(n, _) => RunBudget(g, o, n)
    case Pending(n) => 1 + if o(n).Drops? then 0 else LeaveBudget(g, o, n, o(n).state)
    case Leave(n, st) => if g.kind(n).Fork? then BranchBudget(g, o, n, r.index) - 2 else LeaveBudget(g, o, n, st)
    case Arming(f) => BranchBudget(g, o, f, r.index)
    case ForkTimer(f) => BranchBudget(g, o, f, r.index) - 1
    case Counted(_, _, _) => 1
    case JoinTimer(j, st) => 1 + LeaveBudget(g, o, j, st)
  }

  ghost function LocBudget<N(!new)>(g: Graph<N>, o: N -> Outcome, r: Region<N>, l: Loc<N>): nat
    requires WellNested(g) && LocOk(g, r, l)
  {
    match l
    case At(t) => PlaceBudget(g, o, r, t.place)
    case InFork(f) => JoinBudget(g, o, f)
    case Unarmed(f) => BranchBudget(g, o, f, r.index)
    case _ => 0
  }

  ghost function Costs<N(!new)>(g: Graph<N>, o: N -> Outcome, w: Whereabouts<N>): map<Region<N>, nat>
    requires WellNested(g) && Shape(g, w)
  {
    map r | r in w :: LocBudget(g, o, r, w[r])
  }

  // ---------------------------------------------------------------------------------------------
  // Sums over maps
  // ---------------------------------------------------------------------------------------------

  ghost function Sum<K>(m: map<K, nat>): nat {
    if m == map[] then 0
    else
      var k :| k in m;
      m[k] + Sum(m - {k})
  }

  lemma {:induction false} SumWithout<K>(m: map<K, nat>, k: K)
    requires k in m
    ensures Sum(m) == m[k] + Sum(m - {k})
    decreases |m|
  {
    var x :| x in m && Sum(m) == m[x] + Sum(m - {x});
    if x != k {
      SumWithout(m - {x}, k);
      SumWithout(m - {k}, x);
      assert m - {x} - {k} == m - {k} - {x};
    }
  }

  lemma SumUpdate<K>(m: map<K, nat>, k: K, v: nat)
    ensures Sum(m[k := v]) == Sum(m) + v - if k in m then m[k] else 0
  {
    var m' := m[k := v];
    SumWithout(m', k);
    if k in m {
      SumWithout(m, k);
      assert m' - {k} == m - {k};
    } else {
      assert m' - {k} == m;
    }
  }

  // ---------------------------------------------------------------------------------------------
  // Every step spends
  // ---------------------------------------------------------------------------------------------

  lemma Spends<N(!new)>(g: Graph<N>, o: N -> Outcome, w: Whereabouts<N>, r: Region<N>, l: Loc<N>, w': Whereabouts<N>)
    requires WellNested(g) && Shape(g, w) && r in w && LocOk(g, r, l) && w' == w[r := l]
    ensures Shape(g, w')
    ensures Sum(Costs(g, o, w')) == Sum(Costs(g, o, w)) - LocBudget(g, o, r, w[r]) + LocBudget(g, o, r, l)
  {
    assert Costs(g, o, w') == Costs(g, o, w)[r := LocBudget(g, o, r, l)];
    SumUpdate(Costs(g, o, w), r, LocBudget(g, o, r, l));
  }

  lemma MoveSpends<N(!new)>(g: Graph<N>, o: N -> Outcome, s: State<N>, w: Whereabouts<N>, a: Action<N>, l: Loc<N>)
    requires WellNested(g) && Enabled(g, o, s, a) && !a.token.place.Counted? && !a.token.place.Arming?
    requires a.token.place.Run? ==> g.kind(a.token.place.node).Simple?
    requires PlaceOk(g, a.token.region, a.token.place) && l == MoveTarget(g, o, s, a)
    ensures LocOk(g, a.token.region, l)
    ensures LocBudget(g, o, a.token.region, l) < PlaceBudget(g, o, a.token.region, a.token.place)
  {
    if a.token.place.Leave? {
      AfterLeaveOk(g, o, a.token.region, a.token.place.node, a.token.place.state);
    }
  }

  /** `costs` with the first `k` branches of `f` added. */
  ghost function WithBranches<N(!new)>(g: Graph<N>, o: N -> Outcome, costs: map<Region<N>, nat>, f: N,
      k: nat): map<Region<N>, nat>
    requires WellNested(g) && g.kind(f).Fork? && k <= g.kind(f).active
  {
    if k == 0 then costs
        else WithBranches(g, o, costs, f, k - 1)[Region.Branch(f, k - 1) := BranchBudget(g, o, f, k - 1)]
  }

  lemma {:induction false} BranchesCost<N(!new)>(g: Graph<N>, o: N -> Outcome, costs: map<Region<N>, nat>, f: N, k: nat)
    requires WellNested(g) && g.kind(f).Fork? && k <= g.kind(f).active
    requires forall i: nat :: Region.Branch(f, i) !in costs
    ensures var more := WithBranches(g, o, costs, f, k);
            && Sum(more) == Sum(costs) + BranchesBudget(g, o, f, k)
            && (forall r :: r in more <==> r in costs || r in Branches(f, k))
            && (forall r | r in costs :: more[r] == costs[r])
            && (forall i: nat | i < k :: more[Region.Branch(f, i)] == BranchBudget(g, o, f, i))
  {
    if k > 0 {
      BranchesCost(g, o, costs, f, k - 1);
      SumUpdate(WithBranches(g, o, costs, f, k - 1), Region.Branch(f, k - 1), BranchBudget(g, o, f, k - 1));
    }
  }

  lemma ForkSpends<N(!new)>(g: Graph<N>, o: N -> Outcome, w: Whereabouts<N>, t: Token<N>, f: N, a: nat,
      w': Whereabouts<N>)
    requires WellNested(g) && Shape(g, w) && BranchesOk(g, w) && ForkPre(g, w, t, f, a)
    requires w' == AfterFork(w, t.region, f, a) && Shape(g, w')
    ensures Sum(Costs(g, o, w')) + 1 == Sum(Costs(g, o, w))
  {
    ForkIsNew(g, w, t, f, a);
    var mid := w[t.region := InFork(f)];
    Spends(g, o, w, t.region, InFork(f), mid);
    BranchesCost(g, o, Costs(g, o, mid), f, a);
    ForkCosts(g, o, w, t, f, a, mid, WithBranches(g, o, Costs(g, o, mid), f, a), w');
  }

  lemma NewBranchBudget<N(!new)>(g: Graph<N>, o: N -> Outcome, f: N, a: nat, b: Region<N>)
    requires WellNested(g) && g.kind(f).Fork? && a == g.kind(f).active && b in Branches(f, a)
        && LocOk(g, b, NewBranch(f, b))
    ensures b.Branch? && b.index < a && LocBudget(g, o, b, NewBranch(f, b)) == BranchBudget(g, o, f, b.index)
  {
  }

  lemma ForkCosts<N(!new)>(g: Graph<N>, o: N -> Outcome, w: Whereabouts<N>, t: Token<N>, f: N, a: nat,
      mid: Whereabouts<N>, more: map<Region<N>, nat>, w': Whereabouts<N>)
    requires WellNested(g) && Shape(g, w) && Shape(g, mid) && Shape(g, w') && g.kind(f).Fork? && a == g.kind(f).active
    requires t.region in w && t.region !in Branches(f, a) && mid == w[t.region := InFork(f)]
    requires w' == AfterFork(w, t.region, f, a)
    requires forall r :: r in more <==> r in Costs(g, o, mid) || r in Branches(f, a)
    requires forall r | r in Costs(g, o, mid) :: more[r] == Costs(g, o, mid)[r]
    requires forall i: nat | i < a :: more[Region.Branch(f, i)] == BranchBudget(g, o, f, i)
    requires forall i: nat :: Region.Branch(f, i) !in w
    ensures Costs(g, o, w') == more
  {
    forall r: Region<N> ensures r in Costs(g, o, w') <==> r in more {
      AfterForkAt(w, t.region, f, a, r);
    }
    forall r | r in more ensures Costs(g, o, w')[r] == more[r] {
      AfterForkAt(w, t.region, f, a, r);
      if r in Branches(f, a) {
        assert LocOk(g, r, w'[r]);
        NewBranchBudget(g, o, f, a, r);
      }
    }
  }

  /** A timer is armed, and the loop comes to the next branch. */
  lemma ArmingSpends<N(!new)>(g: Graph<N>, o: N -> Outcome, w: Whereabouts<N>, t: Token<N>, f: N, k: nat,
      w': Whereabouts<N>)
    requires WellNested(g) && Shape(g, w) && BranchesOk(g, w) && ArmPre(g, w, t, f, k)
    requires w' == AfterArming(w, f, k, g.kind(f).active)
    ensures Shape(g, w') && Sum(Costs(g, o, w')) + 1 == Sum(Costs(g, o, w))
  {
    var b, next := Region.Branch(f, k), Region.Branch(f, k + 1);
    var mid := ArmedAt(w, f, k);
    Spends(g, o, w, b, At(Token(b, ForkTimer(f))), mid);
    if k + 1 < g.kind(f).active {
      NextIsUnarmed(g, w, t, f, k);
      Spends(g, o, mid, next, At(Token(next, Arming(f))), w');
    }
  }

  lemma CountedSpends<N(!new)>(g: Graph<N>, o: N -> Outcome, s: State<N>, w: Whereabouts<N>, t: Token<N>, j: N,
      w': Whereabouts<N>)
    requires WellNested(g) && Inv(g, o, s, w) && LastPre(g, w, t, j) && w' == AfterLast(g, s, w, t, j)
    ensures Shape(g, w') && Sum(Costs(g, o, w')) + 1 == Sum(Costs(g, o, w))
  {
    AllArrived(g, s, w, t, j);
    JoinStateIsMeaning(g, o, s, w, t, j);
    var r, l := g.region(j), At(Token(g.region(j), JoinTimer(j, JoinState(s, j))));
    var mid := AfterSpent(w, t);
    Spends(g, o, w, t.region, Arrived(t.place.last), mid);
    assert mid[r] == InFork(g.kind(j).fork);
    Spends(g, o, mid, r, l, w');
  }

  lemma StepSpends<N(!new)>(g: Graph<N>, o: N -> Outcome, s: State<N>, w: Whereabouts<N>, a: Action<N>,
      w': Whereabouts<N>)
    requires WellNested(g) && Inv(g, o, s, w) && Enabled(g, o, s, a) && w' == WhereAfter(g, o, s, w, a) && Shape(g, w')
    ensures Sum(Costs(g, o, w')) < Sum(Costs(g, o, w))
  {
    Located(g, s, w, a.token);
    var t, r := a.token, a.token.region;
    match t.place {
      case Counted(j, count, _) =>
        assert NodeOk(g, j) && NodeOk(g, g.kind(j).fork);
        if count == g.kind(g.kind(j).fork).active {
          CountedSpends(g, o, s, w, t, j, w');
        } else {
          Spends(g, o, w, r, w'[r], w');
        }
      case Arming(f) =>
        ArmingSpends(g, o, w, t, f, r.index, w');
      case Run(n, _) =>
        if g.kind(n).Fork? {
          assert NodeOk(g, n);
          ForkSpends(g, o, w, t, n, g.kind(n).active, w');
        } else {
          if g.kind(n).Simple? { MoveSpends(g, o, s, w, a, w'[r]); }
          Spends(g, o, w, r, w'[r], w');
        }
      case _ =>
        MoveSpends(g, o, s, w, a, w'[r]);
        Spends(g, o, w, r, w'[r], w');
    }
  }

  lemma {:induction false} StepsAndBudget<N(!new)>(g: Graph<N>, o: N -> Outcome, acts: seq<Action<N>>)
      returns (w: Whereabouts<N>)
    requires WellNested(g) && Schedule(g, o, acts)
    ensures Inv(g, o, Exec(g, o, acts), w)
    ensures |acts| + Sum(Costs(g, o, w)) <= RunBudget(g, o, g.start)
    decreases |acts|
  {
    if acts == [] {
      InitInv(g, o);
      w := map[Top := At(Token(Top, Run(g.start, MOD_START)))];
      var none: map<Region<N>, nat> := map[];
      assert Costs(g, o, w) == none[Top := RunBudget(g, o, g.start)];
      SumUpdate(none, Top, RunBudget(g, o, g.start));
    } else {
      var last := |acts| - 1;
      var w0 := StepsAndBudget(g, o, acts[..last]);
      var s := Exec(g, o, acts[..last]);
      w := StepKeepsInv(g, o, s, w0, acts[last]);
      StepSpends(g, o, s, w0, acts[last], w);
    }
  }

  // ---------------------------------------------------------------------------------------------
  // Results
  // ---------------------------------------------------------------------------------------------

  /** For given outcomes of the modules, no interleaving takes more steps than the start module's budget.
      `ExampleBound` bounds that budget for the example graph, for all outcomes at once. */
  lemma SchedulesAreBounded<N(!new)>(g: Graph<N>, o: N -> Outcome, acts: seq<Action<N>>, s: State<N>)
    requires WellNested(g) && Reached(g, o, acts, s)
    ensures |acts| <= RunBudget(g, o, g.start)
  {
    assert Unfolded(0);
    var w := StepsAndBudget(g, o, acts);
  }

  /** Where nothing can step any more, no callback is left, and the request has ended exactly when its
      sequential meaning is to end. */
  lemma StuckMeansDone<N(!new)>(g: Graph<N>, o: N -> Outcome, acts: seq<Action<N>>, s: State<N>)
    requires WellNested(g) && Reached(g, o, acts, s) && forall a: Action<N> :: !Enabled(g, o, s, a)
    ensures s.tokens == multiset{} && (s.ended == 1 <==> Val(g, o, Top) == Ends)
  {
    forall t | t in s.tokens ensures false {
      EveryTokenCanStep(g, o, acts, s, t);
    }
    QuietMeansMeaning(g, o, acts, s);
  }

  /** Every reachable state leads on to rest.  As no schedule exceeds the bound, it does so whichever thread goes
      next at each point. */
  lemma {:induction false} EveryRequestComesToRest<N(!new)>(g: Graph<N>, o: N -> Outcome, acts: seq<Action<N>>,
      s: State<N>)
    returns (more: seq<Action<N>>, s': State<N>)
    requires WellNested(g) && Reached(g, o, acts, s)
    ensures Reached(g, o, acts + more, s') && s'.tokens == multiset{} && (s'.ended == 1 <==> Val(g, o, Top) == Ends)
    decreases RunBudget(g, o, g.start) - |acts|
  {
    SchedulesAreBounded(g, o, acts, s);
    if t :| t in s.tokens {
      EveryTokenCanStep(g, o, acts, s, t);
      var a := Action(t, true);
      s' := Apply(g, o, s, a);
      OneMoreStep(g, o, acts, s, a, s');
      SchedulesAreBounded(g, o, acts + [a], s');
      more, s' := EveryRequestComesToRest(g, o, acts + [a], s');
      assert acts + [a] + more == acts + ([a] + more);
      more := [a] + more;
    } else {
      more, s' := [], s;
      assert acts + [] == acts;
      QuietMeansMeaning(g, o, acts, s);
    }
  }
}
