/**
 One request of the example server, for every number of shards and sub-models and every choice of active
 branches: the graph is well nested, so the results about the token protocol apply to it, and the outcome
 of the two fork/join pyramids has a closed form.
 */
module ExampleRequest {
  import opened ModStates
  import opened TokenEngine
  import opened TokenTheorems
  import LockOrder
  import opened ExampleGraph
  import opened ExampleBuild
  import opened ExampleRoutes

  /** The configuration and how many branches each fork activates in this context. */
  datatype Request = Request(cfg: Config, fsActive: nat, subActive: nat -> nat, psActive: nat)

  /** A fork is given its width as a 16-bit number, and has as many timers. */
  function Timers(width: nat): (timers: nat)
    ensures timers <= width && timers < UINT16_MODULUS
    ensures width < UINT16_MODULUS ==> timers == width
  {
    width % UINT16_MODULUS
  }

  ghost predicate Width(active: nat, width: nat) {
    active <= Timers(width)
  }

  /** Each fork activates no more branches than it has timers, possibly none, and its join waits for as many. */
  ghost predicate Admissible(q: Request) {
    && Fits(q.cfg)
    && Width(q.fsActive, q.cfg.fsShards)
    && Width(q.psActive, q.cfg.PsWidth())
    && forall i: nat | i < q.fsActive :: Width(q.subActive(i), q.cfg.subModels)
  }

  /** The modules of active branches; no other module is ever reached. */
  predicate Live(q: Request, id: ModId) {
    match id
    case FsMod(i) => i < q.fsActive
    case PsForkMod2(i) => i < q.fsActive
    case PsJoinMod2(i) => i < q.fsActive
    case PsMod2(i, j) => i < q.fsActive && j < q.subActive(i)
    case PsBackfillMod2(i, j) => i < q.fsActive && j < q.subActive(i)
    case PsMod(i) => i < q.psActive
    case PsBackfillMod(i) => i < q.psActive
    case _ => true
  }

  function LiveNext(q: Request, id: ModId, st: ModState): Option<ModId> {
    if Live(q, id) then Next(q.cfg, id, st) else None
  }

  function KindOf(q: Request, id: ModId): Kind<ModId> {
    if !Live(q, id) then Simple else
    match id
    case FsForkMod => Fork(FsJoinMod, q.fsActive)
    case FsJoinMod => Join(FsForkMod)
    case PsForkMod2(i) => Fork(PsJoinMod2(i), q.subActive(i))
    case PsJoinMod2(i) => Join(PsForkMod2(i))
    case PsForkMod => Fork(PsJoinMod, q.psActive)
    case PsJoinMod => Join(PsForkMod)
    case _ => Simple
  }

  function RegionOf(q: Request, id: ModId): Region<ModId> {
    if !Live(q, id) then Top else
    match id
    case FsMod(i) => Branch(FsForkMod, i)
    case PsForkMod2(i) => Branch(FsForkMod, i)
    case PsJoinMod2(i) => Branch(FsForkMod, i)
    case PsMod2(i, j) => Branch(PsForkMod2(i), j)
    case PsBackfillMod2(i, j) => Branch(PsForkMod2(i), j)
    case PsMod(i) => Branch(PsForkMod, i)
    case PsBackfillMod(i) => Branch(PsForkMod, i)
    case _ => Top
  }

  function RankOf(id: ModId): nat {
    match id
    case EndMod => 0
    case RespMod => 1 case RandRespMod => 1 case EmptyRespMod => 1
    case IfRandMod => 2
    case FsJoinMod => 3 case PsJoinMod => 3
    case PsJoinMod2(_) => 4 case PsBackfillMod(_) => 4
    case PsBackfillMod2(_, _) => 5 case PsMod(_) => 5
    case PsMod2(_, _) => 6 case PsForkMod => 6
    case PsForkMod2(_) => 7 case GenPsReqMod => 7
    case FsMod(_) => 8
    case FsForkMod => 9
    case GenFsReqMod => 10
    case ReqMod => 11
  }

  function DepthOf(id: ModId): nat {
    match id
    case FsMod(_) => 1 case PsForkMod2(_) => 1 case PsJoinMod2(_) => 1
    case PsMod(_) => 1 case PsBackfillMod(_) => 1
    case PsMod2(_, _) => 2 case PsBackfillMod2(_, _) => 2
    case _ => 0
  }

  ghost function GraphOf(q: Request): Graph<ModId> {
    Graph((id, st) => LiveNext(q, id, st), id => KindOf(q, id), id => RegionOf(q, id),
          id => RankOf(id), id => DepthOf(id), ReqMod, EndMod)
  }

  /** A link of a branch stays in the branch or goes to its join. */
  ghost predicate StaysOrCloses(q: Request, id: ModId, r: Region<ModId>) {
    match KindOf(q, id)
    case Join(f) => r.Branch? && r.fork == f
    case _ => RegionOf(q, id) == r
  }

  lemma SimpleLink(q: Request, id: ModId, st: ModState)
    requires Admissible(q) && KindOf(q, id).Simple? && id != EndMod
    ensures match LiveNext(q, id, st)
            case None => RegionOf(q, id) == Top
            case Some(m) => StaysOrCloses(q, m, RegionOf(q, id))
  {
  }

  lemma JoinLink(q: Request, id: ModId, st: ModState)
    requires Admissible(q) && KindOf(q, id).Join? && (st == MOD_SUCCEED || st == MOD_FAILED)
    ensures LiveNext(q, id, st).Some? && StaysOrCloses(q, LiveNext(q, id, st).value, RegionOf(q, id))
  {
  }

  lemma ForkLink(q: Request, id: ModId, k: nat)
    requires Admissible(q) && KindOf(q, id).Fork? && k < KindOf(q, id).active && k < UINT16_MODULUS
    ensures LiveNext(q, id, MOD_FORK0 + k).Some?
    ensures StaysOrCloses(q, LiveNext(q, id, MOD_FORK0 + k).value, Region.Branch(id, k))
  {
  }

  lemma ForksAreOk(q: Request, id: ModId)
    requires Admissible(q) && KindOf(q, id).Fork?
    ensures ForkOk(GraphOf(q), id)
  {
    var g := GraphOf(q);
    ForkShape(q, id);
    forall k: nat | k < g.kind(id).active ensures LeadsOn(g, id, MOD_FORK0 + k, Region.Branch(id, k)) {
      ForkLink(q, id, k);
      LinkLeadsDown(q, id, MOD_FORK0 + k);
    }
  }

  lemma ForkShape(q: Request, id: ModId)
    requires Admissible(q) && KindOf(q, id).Fork?
    ensures var Fork(j, a) := KindOf(q, id);
            && a < UINT16_MODULUS && KindOf(q, j) == Kind.Join(id)
            && RegionOf(q, j) == RegionOf(q, id) && RankOf(j) < RankOf(id)
    ensures id != EndMod
  {
  }

  lemma JoinsAreOk(q: Request, id: ModId)
    requires Admissible(q) && KindOf(q, id).Join?
    ensures JoinOk(GraphOf(q), id)
  {
    JoinLink(q, id, MOD_SUCCEED);
    JoinLink(q, id, MOD_FAILED);
    LinkLeadsDown(q, id, MOD_SUCCEED);
    LinkLeadsDown(q, id, MOD_FAILED);
  }

  lemma SimplesAreOk(q: Request, id: ModId, st: ModState)
    requires Admissible(q) && KindOf(q, id).Simple? && id != EndMod
    ensures LeadsOn(GraphOf(q), id, st, RegionOf(q, id))
  {
    SimpleLink(q, id, st);
    if LiveNext(q, id, st).Some? {
      LinkLeadsDown(q, id, st);
    }
  }

  lemma ModuleIsOk(q: Request, id: ModId)
    requires Admissible(q)
    ensures NodeOk(GraphOf(q), id)
  {
    var g := GraphOf(q);
    if g.kind(id).Fork? {
      ForksAreOk(q, id);
    } else if g.kind(id).Join? {
      JoinsAreOk(q, id);
    } else if id != EndMod {
      forall st: ModState ensures LeadsOn(g, id, st, g.region(id)) {
        SimplesAreOk(q, id, st);
      }
    }
  }

  /** For every number of shards, sub-models and active branches the example graph is well nested. */
  lemma ExampleIsWellNested(q: Request)
    requires Admissible(q)
    ensures WellNested(GraphOf(q))
  {
    forall id: ModId ensures NodeOk(GraphOf(q), id) {
      ModuleIsOk(q, id);
    }
  }

  /** The table that all contexts of a server share, with the links of inactive modules. */
  ghost function TableOf(cfg: Config): Graph<ModId> {
    Graph((id, st) => Next(cfg, id, st), id => Simple, id => Top, id => RankOf(id), id => 0, ReqMod, EndMod)
  }

  /** The links of the server's table lead down, so that the locks of all contexts are taken in order and never
      deadlock (`LockOrder`). */
  lemma ExampleIsAcyclic(cfg: Config)
    ensures LockOrder.Acyclic(TableOf(cfg))
  {
    var g := TableOf(cfg);
    forall id: ModId, st: ModState | id != g.end && g.next(id, st).Some?
      ensures g.rank(g.next(id, st).value) < g.rank(id)
    {
      TableLeadsDown(cfg, id, st);
    }
  }

  lemma TableLeadsDown(cfg: Config, id: ModId, st: ModState)
    requires id != EndMod && Next(cfg, id, st).Some?
    ensures RankOf(Next(cfg, id, st).value) < RankOf(id)
  {
  }

  /** No deadlock among all the threads of the example server. */
  lemma ExampleNeverDeadlocks(cfg: Config, steps: seq<LockOrder.Step<ModId>>)
    requires LockOrder.Schedule(TableOf(cfg), steps) && LockOrder.Exec(TableOf(cfg), steps) != map[]
    ensures exists a: LockOrder.Action :: (a.Acquire? || a.Release? || a.Return?)
                && LockOrder.Enabled(TableOf(cfg), LockOrder.Exec(TableOf(cfg), steps), LockOrder.Go(a))
  {
    ExampleIsAcyclic(cfg);
    LockOrder.SomeThreadCanGoOn(TableOf(cfg), steps);
  }

  lemma LinkLeadsDown(q: Request, id: ModId, st: ModState)
    requires id != EndMod && LiveNext(q, id, st).Some?
    ensures RankOf(LiveNext(q, id, st).value) < RankOf(id)
  {
  }

  // ---------------------------------------------------------------------------------------------
  // What the joins decide
  // ---------------------------------------------------------------------------------------------

  predicate Succeeded(o: ModId -> Outcome, id: ModId) {
    o(id).Resumes? && o(id).state == MOD_SUCCEED
  }

  /** A leaf module or, when it does not succeed, its backfill has succeeded. */
  predicate LeafSucceeds(o: ModId -> Outcome, leaf: ModId, backfill: ModId) {
    o(leaf).Resumes? && (Succeeded(o, leaf) || Succeeded(o, backfill))
  }

  /** The continuation of a leaf module or of its backfill is dropped. */
  predicate LeafIsLost(o: ModId -> Outcome, leaf: ModId, backfill: ModId) {
    o(leaf).Drops? || (!Succeeded(o, leaf) && o(backfill).Drops?)
  }

  ghost predicate ShardSucceeds(q: Request, o: ModId -> Outcome, i: nat) {
    Succeeded(o, FsMod(i)) && q.subActive(i) >= 1
        && forall j: nat | j < q.subActive(i) :: LeafSucceeds(o, PsMod2(i, j), PsBackfillMod2(i, j))
  }

  /** The shard never reaches its join: a continuation is dropped, or its nested fork activates no branch. */
  ghost predicate ShardIsLost(q: Request, o: ModId -> Outcome, i: nat) {
    || o(FsMod(i)).Drops?
    || (Succeeded(o, FsMod(i)) && q.subActive(i) == 0)
    || (Succeeded(o, FsMod(i))
        && exists j: nat :: j < q.subActive(i) && LeafIsLost(o, PsMod2(i, j), PsBackfillMod2(i, j)))
  }

  ghost predicate FsSucceeds(q: Request, o: ModId -> Outcome) {
    forall i: nat | i < q.fsActive :: ShardSucceeds(q, o, i)
  }

  ghost predicate PsSucceeds(q: Request, o: ModId -> Outcome) {
    forall i: nat | i < q.psActive :: LeafSucceeds(o, PsMod(i), PsBackfillMod(i))
  }

  /** A branch that is one leaf module, backed up by another one when it does not succeed. */
  lemma BackedUpLeaf(g: Graph<ModId>, o: ModId -> Outcome, f: ModId, k: nat, leaf: ModId, backfill: ModId, join: ModId)
    requires WellNested(g) && g.kind(f).Fork? && k < g.kind(f).active < UINT16_MODULUS
    requires g.next(f, MOD_FORK0 + k) == Some(leaf)
    requires g.kind(leaf).Simple? && leaf != g.end
    requires forall st: ModState :: g.next(leaf, st) == Some(if st == MOD_SUCCEED then join else backfill)
    requires g.kind(backfill).Simple? && backfill != g.end
    requires forall st: ModState :: g.next(backfill, st) == Some(join)
    requires g.kind(join).Join?
    ensures var v := Val(g, o, Region.Branch(f, k));
            && (v.Arrives? <==> !LeafIsLost(o, leaf, backfill))
            && (v == Arrives(MOD_SUCCEED) <==> LeafSucceeds(o, leaf, backfill))
  {
    assert EvalBranch(g, o, f, k) == EvalRun(g, o, leaf, MOD_FORK0 + k);
    if o(leaf).Resumes? {
      var st := o(leaf).state;
      assert EvalRun(g, o, leaf, MOD_FORK0 + k) == EvalLeave(g, o, leaf, st);
      if st == MOD_SUCCEED {
        assert EvalRun(g, o, join, st) == Arrives(st);
      } else {
        assert EvalLeave(g, o, leaf, st) == EvalRun(g, o, backfill, st);
        if o(backfill).Resumes? {
          assert EvalRun(g, o, backfill, st) == EvalLeave(g, o, backfill, o(backfill).state);
          assert EvalLeave(g, o, backfill, o(backfill).state) == EvalRun(g, o, join, o(backfill).state);
          assert EvalRun(g, o, join, o(backfill).state) == Arrives(o(backfill).state);
        }
      }
    }
  }

  lemma LeafVerdict(q: Request, o: ModId -> Outcome, i: nat, j: nat)
    requires Admissible(q) && i < q.fsActive && j < q.subActive(i) && WellNested(GraphOf(q))
    ensures var v := Val(GraphOf(q), o, Region.Branch(PsForkMod2(i), j));
            && (v.Arrives? <==> !LeafIsLost(o, PsMod2(i, j), PsBackfillMod2(i, j)))
            && (v == Arrives(MOD_SUCCEED) <==> LeafSucceeds(o, PsMod2(i, j), PsBackfillMod2(i, j)))
  {
    BackedUpLeaf(GraphOf(q), o, PsForkMod2(i), j, PsMod2(i, j), PsBackfillMod2(i, j), PsJoinMod2(i));
  }

  lemma PsLeafVerdict(q: Request, o: ModId -> Outcome, i: nat)
    requires Admissible(q) && i < q.psActive && WellNested(GraphOf(q))
    ensures var v := Val(GraphOf(q), o, Region.Branch(PsForkMod, i));
            && (v.Arrives? <==> !LeafIsLost(o, PsMod(i), PsBackfillMod(i)))
            && (v == Arrives(MOD_SUCCEED) <==> LeafSucceeds(o, PsMod(i), PsBackfillMod(i)))
  {
    BackedUpLeaf(GraphOf(q), o, PsForkMod, i, PsMod(i), PsBackfillMod(i), PsJoinMod);
  }

  lemma SubModelsVerdict(q: Request, o: ModId -> Outcome, i: nat)
    requires Admissible(q) && i < q.fsActive && WellNested(GraphOf(q))
    ensures var v := EvalBranches(GraphOf(q), o, PsForkMod2(i), q.subActive(i));
            && (v == Lost <==> exists j: nat :: j < q.subActive(i) && LeafIsLost(o, PsMod2(i, j), PsBackfillMod2(i, j)))
            && (v == Arrives(MOD_SUCCEED) <==>
                  forall j: nat | j < q.subActive(i) :: LeafSucceeds(o, PsMod2(i, j), PsBackfillMod2(i, j)))
  {
    var g := GraphOf(q);
    BranchesMeaning(g, o, PsForkMod2(i), q.subActive(i));
    forall j: nat | j < q.subActive(i)
      ensures Val(g, o, Region.Branch(PsForkMod2(i), j)).Arrives?
          <==> !LeafIsLost(o, PsMod2(i, j), PsBackfillMod2(i, j))
      ensures Val(g, o, Region.Branch(PsForkMod2(i), j)) == Arrives(MOD_SUCCEED)
          <==> LeafSucceeds(o, PsMod2(i, j), PsBackfillMod2(i, j))
    {
      LeafVerdict(q, o, i, j);
    }
  }

  lemma ShardVerdict(q: Request, o: ModId -> Outcome, i: nat)
    requires Admissible(q) && i < q.fsActive && WellNested(GraphOf(q))
    ensures var v := Val(GraphOf(q), o, Region.Branch(FsForkMod, i));
            && (v.Arrives? <==> !ShardIsLost(q, o, i))
            && (v == Arrives(MOD_SUCCEED) <==> ShardSucceeds(q, o, i))
  {
    var g := GraphOf(q);
    SubModelsVerdict(q, o, i);
    assert EvalBranch(g, o, FsForkMod, i) == EvalRun(g, o, FsMod(i), MOD_FORK0 + i);
    if o(FsMod(i)).Resumes? {
      var st := o(FsMod(i)).state;
      assert EvalRun(g, o, FsMod(i), MOD_FORK0 + i) == EvalLeave(g, o, FsMod(i), st);
      if st == MOD_SUCCEED {
        assert EvalLeave(g, o, FsMod(i), st) == EvalRun(g, o, PsForkMod2(i), st);
        var v := EvalBranches(g, o, PsForkMod2(i), q.subActive(i));
        if v.Arrives? && q.subActive(i) >= 1 {
          assert EvalRun(g, o, PsForkMod2(i), st) == EvalLeave(g, o, PsJoinMod2(i), v.state);
          assert EvalLeave(g, o, PsJoinMod2(i), v.state) == EvalRun(g, o, FsJoinMod, v.state);
        }
      } else {
        assert EvalLeave(g, o, FsMod(i), st) == EvalRun(g, o, FsJoinMod, st);
      }
    }
  }

  lemma FsVerdict(q: Request, o: ModId -> Outcome)
    requires Admissible(q) && WellNested(GraphOf(q))
    ensures var v := EvalBranches(GraphOf(q), o, FsForkMod, q.fsActive);
            && (v == Lost <==> exists i: nat :: i < q.fsActive && ShardIsLost(q, o, i))
            && (v == Arrives(MOD_SUCCEED) <==> FsSucceeds(q, o))
  {
    var g := GraphOf(q);
    BranchesMeaning(g, o, FsForkMod, q.fsActive);
    forall i: nat | i < q.fsActive
      ensures Val(g, o, Region.Branch(FsForkMod, i)).Arrives? <==> !ShardIsLost(q, o, i)
      ensures Val(g, o, Region.Branch(FsForkMod, i)) == Arrives(MOD_SUCCEED) <==> ShardSucceeds(q, o, i)
    {
      ShardVerdict(q, o, i);
    }
  }

  lemma PsVerdict(q: Request, o: ModId -> Outcome)
    requires Admissible(q) && WellNested(GraphOf(q))
    ensures var v := EvalBranches(GraphOf(q), o, PsForkMod, q.psActive);
            && (v == Lost <==> exists i: nat :: i < q.psActive && LeafIsLost(o, PsMod(i), PsBackfillMod(i)))
            && (v == Arrives(MOD_SUCCEED) <==> PsSucceeds(q, o))
  {
    var g := GraphOf(q);
    BranchesMeaning(g, o, PsForkMod, q.psActive);
    forall i: nat | i < q.psActive
      ensures Val(g, o, Region.Branch(PsForkMod, i)).Arrives? <==> !LeafIsLost(o, PsMod(i), PsBackfillMod(i))
      ensures Val(g, o, Region.Branch(PsForkMod, i)) == Arrives(MOD_SUCCEED)
          <==> LeafSucceeds(o, PsMod(i), PsBackfillMod(i))
    {
      PsLeafVerdict(q, o, i);
    }
  }

  // ---------------------------------------------------------------------------------------------
  // Results about every interleaving of a request
  // ---------------------------------------------------------------------------------------------

  /** The steps `acts`, in whatever order threads made them, lead a request to `s`. */
  ghost predicate Led(q: Request, o: ModId -> Outcome, acts: seq<Action<ModId>>, s: State<ModId>) {
    forall i: int :: Unfolded(i) ==> Schedule(GraphOf(q), o, acts) && s == Exec(GraphOf(q), o, acts)
  }

  lemma LedIsReached(q: Request, o: ModId -> Outcome, acts: seq<Action<ModId>>, s: State<ModId>)
    requires Admissible(q) && Led(q, o, acts, s)
    ensures Reached(GraphOf(q), o, acts, s)
  {
    assert Unfolded(0);
    ExampleIsWellNested(q);
  }

  lemma JoinRoutes(cfg: Config, st: ModState)
    requires st == MOD_SUCCEED || st == MOD_FAILED
    ensures Next(cfg, FsJoinMod, st) == Some(if st == MOD_SUCCEED then IfRandMod else EmptyRespMod)
    ensures Next(cfg, PsJoinMod, st) == Some(if st == MOD_SUCCEED then IfRandMod else EmptyRespMod)
  {
  }

  lemma FsJoinMeans(q: Request, o: ModId -> Outcome, st: ModState)
    requires Admissible(q) && WellNested(GraphOf(q))
        && EvalBranches(GraphOf(q), o, FsForkMod, q.fsActive) == Arrives(st)
    ensures st == if FsSucceeds(q, o) then MOD_SUCCEED else MOD_FAILED
    ensures Next(q.cfg, FsJoinMod, st) == Some(if FsSucceeds(q, o) then IfRandMod else EmptyRespMod)
  {
    FsVerdict(q, o);
    JoinRoutes(q.cfg, st);
  }

  lemma PsJoinMeans(q: Request, o: ModId -> Outcome, st: ModState)
    requires Admissible(q) && WellNested(GraphOf(q))
        && EvalBranches(GraphOf(q), o, PsForkMod, q.psActive) == Arrives(st)
    ensures st == if PsSucceeds(q, o) then MOD_SUCCEED else MOD_FAILED
    ensures Next(q.cfg, PsJoinMod, st) == Some(if PsSucceeds(q, o) then IfRandMod else EmptyRespMod)
  {
    PsVerdict(q, o);
    JoinRoutes(q.cfg, st);
  }

  /** However the callbacks interleave, `fs_join_mod` leaves with success, towards the response, exactly
      when every active shard and each of its sub-models succeeded; otherwise it leaves with failure,
      towards the empty response. */
  lemma FsJoinIsConfluent(q: Request, o: ModId -> Outcome, acts: seq<Action<ModId>>, s: State<ModId>, t: Token<ModId>)
    requires Admissible(q) && Led(q, o, acts, s) && t in s.tokens
    requires (t.place.JoinTimer? || t.place.Leave?) && t.place.node == FsJoinMod
    ensures t.place.state == if FsSucceeds(q, o) then MOD_SUCCEED else MOD_FAILED
    ensures Next(q.cfg, FsJoinMod, t.place.state) == Some(if FsSucceeds(q, o) then IfRandMod else EmptyRespMod)
  {
    LedIsReached(q, o, acts, s);
    ExampleIsWellNested(q);
    JoinsAreConfluent(GraphOf(q), o, acts, s, t);
    FsJoinMeans(q, o, t.place.state);
  }

  lemma PsJoinIsConfluent(q: Request, o: ModId -> Outcome, acts: seq<Action<ModId>>, s: State<ModId>, t: Token<ModId>)
    requires Admissible(q) && Led(q, o, acts, s) && t in s.tokens
    requires (t.place.JoinTimer? || t.place.Leave?) && t.place.node == PsJoinMod
    ensures t.place.state == if PsSucceeds(q, o) then MOD_SUCCEED else MOD_FAILED
    ensures Next(q.cfg, PsJoinMod, t.place.state) == Some(if PsSucceeds(q, o) then IfRandMod else EmptyRespMod)
  {
    LedIsReached(q, o, acts, s);
    ExampleIsWellNested(q);
    JoinsAreConfluent(GraphOf(q), o, acts, s, t);
    PsJoinMeans(q, o, t.place.state);
  }
}
