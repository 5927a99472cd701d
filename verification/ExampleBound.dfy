/** How many steps a request of the example server can take, whatever its modules answer. */
module ExampleBound {
  import opened ModStates
  import opened TokenEngine
  import opened TokenBound
  import opened ExampleGraph
  import opened ExampleBuild
  import opened ExampleRoutes
  import opened ExampleRequest
  import opened ExampleEnds

  // ---------------------------------------------------------------------------------------------
  // The bound
  // ---------------------------------------------------------------------------------------------

  /** Eleven steps for each active shard, and eleven for each of its active sub-models. */
  function ShardSteps(q: Request, n: nat): nat {
    if n == 0 then 0 else ShardSteps(q, n - 1) + 11 + 11 * q.subActive(n - 1)
  }

  function StepBound(q: Request): nat {
    18 + if ShardSteps(q, q.fsActive) > 11 * q.psActive then ShardSteps(q, q.fsActive) else 11 * q.psActive
  }

  // ---------------------------------------------------------------------------------------------
  // The budgets stay below it
  // ---------------------------------------------------------------------------------------------

  lemma SimpleBudget(g: Graph<ModId>, o: ModId -> Outcome, n: ModId)
    requires WellNested(g) && g.kind(n).Simple? && n != g.end
    ensures o(n).Drops? || g.next(n, o(n).state).None? ==> RunBudget(g, o, n) <= 3
    ensures o(n).Resumes? && g.next(n, o(n).state).Some? ==>
              RunBudget(g, o, n) == 3 + RunBudget(g, o, g.next(n, o(n).state).value)
  {
    if o(n).Resumes? {
      assert RunBudget(g, o, n) == 2 + LeaveBudget(g, o, n, o(n).state);
    }
  }

  lemma EndBudget(q: Request, o: ModId -> Outcome)
    requires WellNested(GraphOf(q))
    ensures RunBudget(GraphOf(q), o, EndMod) <= 3
  {
    var g := GraphOf(q);
    assert o(EndMod).Resumes? ==> LeaveBudget(g, o, EndMod, o(EndMod).state) == 1;
  }

  lemma ResponseBudget(q: Request, o: ModId -> Outcome, id: ModId)
    requires WellNested(GraphOf(q)) && (id == RespMod || id == RandRespMod || id == EmptyRespMod)
    ensures RunBudget(GraphOf(q), o, id) <= 6
  {
    var g := GraphOf(q);
    SimpleBudget(g, o, id);
    EndBudget(q, o);
    assert o(id).Resumes? ==> g.next(id, o(id).state) == Some(EndMod);
  }

  lemma IfRandBudget(q: Request, o: ModId -> Outcome)
    requires WellNested(GraphOf(q))
    ensures RunBudget(GraphOf(q), o, IfRandMod) <= 9
  {
    var g := GraphOf(q);
    SimpleBudget(g, o, IfRandMod);
    if o(IfRandMod).Resumes? {
      IfRandRoutes(q.cfg, o(IfRandMod).state);
      var to := Next(q.cfg, IfRandMod, o(IfRandMod).state);
      assert g.next(IfRandMod, o(IfRandMod).state) == to;
      if to.Some? {
        ResponseBudget(q, o, to.value);
      }
    }
  }

  lemma TopJoinBudget(q: Request, o: ModId -> Outcome, f: ModId, j: ModId)
    requires WellNested(GraphOf(q)) && (j == FsJoinMod || j == PsJoinMod)
    requires GraphOf(q).kind(f).Fork? && GraphOf(q).kind(f).join == j && GraphOf(q).kind(j).Join?
    ensures JoinBudget(GraphOf(q), o, f) <= 11
  {
    var g := GraphOf(q);
    var all := EvalBranches(g, o, f, g.kind(f).active);
    if all.Arrives? {
      JoinRoutes(q.cfg, all.state);
      var m := if all.state == MOD_SUCCEED then IfRandMod else EmptyRespMod;
      assert g.next(j, all.state) == Some(m);
      assert LeaveBudget(g, o, j, all.state) == 1 + RunBudget(g, o, m);
      IfRandBudget(q, o);
      ResponseBudget(q, o, EmptyRespMod);
    }
  }

  /** A branch that is one leaf module, backed up by another one. */
  lemma LeafBudget(g: Graph<ModId>, o: ModId -> Outcome, f: ModId, k: nat, leaf: ModId, backfill: ModId, join: ModId)
    requires WellNested(g) && g.kind(f).Fork? && k < g.kind(f).active < UINT16_MODULUS
    requires g.next(f, MOD_FORK0 + k) == Some(leaf)
    requires g.kind(leaf).Simple? && leaf != g.end
    requires forall st: ModState :: g.next(leaf, st) == Some(if st == MOD_SUCCEED then join else backfill)
    requires g.kind(backfill).Simple? && backfill != g.end
    requires forall st: ModState :: g.next(backfill, st) == Some(join)
    requires g.kind(join).Join?
    ensures BranchBudget(g, o, f, k) <= 11
  {
    assert RunBudget(g, o, join) == 2;
    SimpleBudget(g, o, backfill);
    SimpleBudget(g, o, leaf);
    assert RunBudget(g, o, backfill) <= 5;
    assert RunBudget(g, o, leaf) <= 8;
  }

  lemma {:induction false} EvenBranches(g: Graph<ModId>, o: ModId -> Outcome, f: ModId, k: nat)
    requires WellNested(g) && g.kind(f).Fork? && k <= g.kind(f).active
    requires forall i: nat | i < k :: BranchBudget(g, o, f, i) <= 11
    ensures BranchesBudget(g, o, f, k) <= 11 * k
  {
    if k > 0 {
      EvenBranches(g, o, f, k - 1);
    }
  }

  lemma SubModelsBudget(q: Request, o: ModId -> Outcome, i: nat)
    requires Admissible(q) && i < q.fsActive && WellNested(GraphOf(q))
    ensures RunBudget(GraphOf(q), o, PsForkMod2(i)) <= 5 + 11 * q.subActive(i)
  {
    var g, f := GraphOf(q), PsForkMod2(i);
    assert g.kind(f) == Fork(PsJoinMod2(i), q.subActive(i));
    forall j: nat | j < q.subActive(i) ensures BranchBudget(g, o, f, j) <= 11 {
      LeafBudget(g, o, f, j, PsMod2(i, j), PsBackfillMod2(i, j), PsJoinMod2(i));
    }
    EvenBranches(g, o, f, q.subActive(i));
    NestedJoinBudget(q, o, i);
  }

  lemma NestedJoinBudget(q: Request, o: ModId -> Outcome, i: nat)
    requires Admissible(q) && i < q.fsActive && WellNested(GraphOf(q)) && GraphOf(q).kind(PsForkMod2(i)).Fork?
    ensures JoinBudget(GraphOf(q), o, PsForkMod2(i)) <= 4
  {
    var g, f := GraphOf(q), PsForkMod2(i);
    var all := EvalBranches(g, o, f, g.kind(f).active);
    if all.Arrives? {
      assert g.next(PsJoinMod2(i), all.state) == Some(FsJoinMod);
      assert RunBudget(g, o, FsJoinMod) == 2;
      assert LeaveBudget(g, o, PsJoinMod2(i), all.state) == 3;
    }
  }

  lemma ShardBudget(q: Request, o: ModId -> Outcome, i: nat)
    requires Admissible(q) && i < q.fsActive && WellNested(GraphOf(q)) && GraphOf(q).kind(FsForkMod).Fork?
    requires i < GraphOf(q).kind(FsForkMod).active
    ensures BranchBudget(GraphOf(q), o, FsForkMod, i) <= 11 + 11 * q.subActive(i)
  {
    var g := GraphOf(q);
    assert g.next(FsForkMod, MOD_FORK0 + i) == Some(FsMod(i));
    assert BranchBudget(g, o, FsForkMod, i) == 3 + RunBudget(g, o, FsMod(i));
    SimpleBudget(g, o, FsMod(i));
    SubModelsBudget(q, o, i);
    if o(FsMod(i)).Resumes? {
      var st := o(FsMod(i)).state;
      assert g.next(FsMod(i), st) == Some(if st == MOD_SUCCEED then PsForkMod2(i) else FsJoinMod);
      assert RunBudget(g, o, FsJoinMod) == 2;
    }
  }

  lemma {:induction false} ShardsBudget(q: Request, o: ModId -> Outcome, k: nat)
    requires Admissible(q) && WellNested(GraphOf(q)) && GraphOf(q).kind(FsForkMod) == Fork(FsJoinMod, q.fsActive)
    requires k <= q.fsActive
    ensures BranchesBudget(GraphOf(q), o, FsForkMod, k) <= ShardSteps(q, k)
  {
    if k > 0 {
      ShardsBudget(q, o, k - 1);
      ShardBudget(q, o, k - 1);
    }
  }

  lemma FsBudget(q: Request, o: ModId -> Outcome)
    requires Admissible(q) && WellNested(GraphOf(q))
    ensures RunBudget(GraphOf(q), o, FsForkMod) <= 12 + ShardSteps(q, q.fsActive)
  {
    var g := GraphOf(q);
    assert g.kind(FsForkMod) == Fork(FsJoinMod, q.fsActive);
    ShardsBudget(q, o, q.fsActive);
    TopJoinBudget(q, o, FsForkMod, FsJoinMod);
  }

  lemma PsBudget(q: Request, o: ModId -> Outcome)
    requires Admissible(q) && WellNested(GraphOf(q))
    ensures RunBudget(GraphOf(q), o, PsForkMod) <= 12 + 11 * q.psActive
  {
    var g := GraphOf(q);
    assert g.kind(PsForkMod) == Fork(PsJoinMod, q.psActive);
    forall i: nat | i < q.psActive ensures BranchBudget(g, o, PsForkMod, i) <= 11 {
      LeafBudget(g, o, PsForkMod, i, PsMod(i), PsBackfillMod(i), PsJoinMod);
    }
    EvenBranches(g, o, PsForkMod, q.psActive);
    TopJoinBudget(q, o, PsForkMod, PsJoinMod);
  }

  lemma GeneratorBudget(q: Request, o: ModId -> Outcome, gen: ModId)
    requires Admissible(q) && WellNested(GraphOf(q)) && (gen == GenFsReqMod || gen == GenPsReqMod)
    ensures RunBudget(GraphOf(q), o, gen) <=
            15 + if gen == GenFsReqMod then ShardSteps(q, q.fsActive) else 11 * q.psActive
  {
    var g := GraphOf(q);
    SimpleBudget(g, o, gen);
    FsBudget(q, o);
    PsBudget(q, o);
    ResponseBudget(q, o, EmptyRespMod);
    if o(gen).Resumes? {
      HeadRoutes(q.cfg, o(gen).state);
      assert g.next(gen, o(gen).state) == Next(q.cfg, gen, o(gen).state);
    }
  }

  lemma RequestBudget(q: Request, o: ModId -> Outcome)
    requires Admissible(q) && WellNested(GraphOf(q))
    ensures RunBudget(GraphOf(q), o, ReqMod) <= StepBound(q)
  {
    var g := GraphOf(q);
    SimpleBudget(g, o, ReqMod);
    GeneratorBudget(q, o, GenFsReqMod);
    GeneratorBudget(q, o, GenPsReqMod);
    ResponseBudget(q, o, RandRespMod);
    EndBudget(q, o);
    if o(ReqMod).Resumes? {
      HeadRoutes(q.cfg, o(ReqMod).state);
      assert g.next(ReqMod, o(ReqMod).state) == Next(q.cfg, ReqMod, o(ReqMod).state);
    }
  }

  /** Whatever the modules answer and however the threads interleave, a request makes at most `StepBound(q)` steps. */
  lemma ExampleIsBounded(q: Request, o: ModId -> Outcome, acts: seq<Action<ModId>>, s: State<ModId>)
    requires Admissible(q) && Led(q, o, acts, s)
    ensures |acts| <= StepBound(q)
  {
    LedIsReached(q, o, acts, s);
    ExampleIsWellNested(q);
    SchedulesAreBounded(GraphOf(q), o, acts, s);
    RequestBudget(q, o);
  }
}
