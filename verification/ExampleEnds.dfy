/** When a request of the example server ends: the exact condition, as a function of what its modules do. */
module ExampleEnds {
  import opened ModStates
  import opened TokenEngine
  import opened TokenTheorems
  import TokenBound
  import ContextChain
  import ConnectionRuns
  import opened ExampleGraph
  import opened ExampleBuild
  import opened ExampleRoutes
  import opened ExampleRequest

  // ---------------------------------------------------------------------------------------------
  // The closed form
  // ---------------------------------------------------------------------------------------------

  predicate Answers(o: ModId -> Outcome, id: ModId) {
    o(id).Resumes?
  }

  ghost predicate ResponseEnds(o: ModId -> Outcome, id: ModId) {
    Answers(o, id) && Answers(o, EndMod)
  }

  ghost predicate AfterJoinEnds(q: Request, o: ModId -> Outcome, success: bool) {
    if !success then ResponseEnds(o, EmptyRespMod)
    else
      && Answers(o, IfRandMod)
      && match Next(q.cfg, IfRandMod, o(IfRandMod).state)
         case None => true
         case Some(m) => ResponseEnds(o, m)
  }

  /** There is an active shard, and every active shard reaches the join. */
  ghost predicate FsEnds(q: Request, o: ModId -> Outcome) {
    && q.fsActive >= 1
    && (forall i: nat | i < q.fsActive :: !ShardIsLost(q, o, i))
    && AfterJoinEnds(q, o, FsSucceeds(q, o))
  }

  ghost predicate PsEnds(q: Request, o: ModId -> Outcome) {
    && q.psActive >= 1
    && (forall i: nat | i < q.psActive :: !LeafIsLost(o, PsMod(i), PsBackfillMod(i)))
    && AfterJoinEnds(q, o, PsSucceeds(q, o))
  }

  ghost predicate GeneratorEnds(o: ModId -> Outcome, gen: ModId, rest: bool) {
    Answers(o, gen) && if o(gen).state == MOD_SUCCEED then rest else ResponseEnds(o, EmptyRespMod)
  }

  ghost predicate RequestEnds(q: Request, o: ModId -> Outcome) {
    && Answers(o, ReqMod)
    && match Next(q.cfg, ReqMod, o(ReqMod).state)
       case Some(GenFsReqMod) => GeneratorEnds(o, GenFsReqMod, FsEnds(q, o))
       case Some(GenPsReqMod) => GeneratorEnds(o, GenPsReqMod, PsEnds(q, o))
       case Some(RandRespMod) => ResponseEnds(o, RandRespMod)
       case _ => Answers(o, EndMod)
  }

  // ---------------------------------------------------------------------------------------------
  // It is the sequential meaning
  // ---------------------------------------------------------------------------------------------

  lemma SimpleEval(g: Graph<ModId>, o: ModId -> Outcome, n: ModId, last: ModState)
    requires WellNested(g) && g.kind(n).Simple? && n != g.end
    ensures o(n).Drops? ==> EvalRun(g, o, n, last) == Lost
    ensures o(n).Resumes? && g.next(n, o(n).state).None? ==> EvalRun(g, o, n, last) == Ends
    ensures o(n).Resumes? && g.next(n, o(n).state).Some? ==>
              EvalRun(g, o, n, last) == EvalRun(g, o, g.next(n, o(n).state).value, o(n).state)
  {
    if o(n).Resumes? {
      assert EvalRun(g, o, n, last) == EvalLeave(g, o, n, o(n).state);
    }
  }

  lemma ResponseEval(q: Request, o: ModId -> Outcome, id: ModId, last: ModState)
    requires WellNested(GraphOf(q)) && (id == RespMod || id == RandRespMod || id == EmptyRespMod)
    ensures EvalRun(GraphOf(q), o, id, last) == Ends <==> ResponseEnds(o, id)
  {
    var g := GraphOf(q);
    SimpleEval(g, o, id, last);
    if Answers(o, id) {
      assert g.next(id, o(id).state) == Some(EndMod);
      EndEval(q, o, o(id).state);
    }
  }

  lemma EndEval(q: Request, o: ModId -> Outcome, last: ModState)
    requires WellNested(GraphOf(q))
    ensures EvalRun(GraphOf(q), o, EndMod, last) == Ends <==> Answers(o, EndMod)
  {
    var g := GraphOf(q);
    if Answers(o, EndMod) {
      assert EvalRun(g, o, EndMod, last) == EvalLeave(g, o, EndMod, o(EndMod).state);
    }
  }

  lemma IfRandRoutes(cfg: Config, st: ModState)
    ensures var to := Next(cfg, IfRandMod, st); to == None || to == Some(RespMod) || to == Some(RandRespMod)
  {
  }

  lemma AfterJoinEval(q: Request, o: ModId -> Outcome, j: ModId, st: ModState)
    requires WellNested(GraphOf(q)) && (j == FsJoinMod || j == PsJoinMod) && (st == MOD_SUCCEED || st == MOD_FAILED)
    requires GraphOf(q).kind(j).Join?
    ensures EvalLeave(GraphOf(q), o, j, st) == Ends <==> AfterJoinEnds(q, o, st == MOD_SUCCEED)
  {
    var g := GraphOf(q);
    JoinRoutes(q.cfg, st);
    var m := if st == MOD_SUCCEED then IfRandMod else EmptyRespMod;
    assert g.next(j, st) == Some(m);
    assert EvalLeave(g, o, j, st) == EvalRun(g, o, m, st);
    if st == MOD_SUCCEED {
      SimpleEval(g, o, IfRandMod, st);
      if Answers(o, IfRandMod) {
        IfRandRoutes(q.cfg, o(IfRandMod).state);
        var to := Next(q.cfg, IfRandMod, o(IfRandMod).state);
        assert g.next(IfRandMod, o(IfRandMod).state) == to;
        if to.Some? {
          ResponseEval(q, o, to.value, o(IfRandMod).state);
        }
      }
    } else {
      ResponseEval(q, o, EmptyRespMod, st);
    }
  }

  lemma ForkEval(g: Graph<ModId>, o: ModId -> Outcome, f: ModId, last: ModState)
    requires WellNested(g) && g.kind(f).Fork?
    ensures NodeOk(g, f)
    ensures var v := EvalBranches(g, o, f, g.kind(f).active);
            EvalRun(g, o, f, last) == if g.kind(f).active == 0 || v == Lost then Lost
                else EvalLeave(g, o, g.kind(f).join, v.state)
  {
    assert NodeOk(g, f);
  }

  lemma FsEval(q: Request, o: ModId -> Outcome, last: ModState)
    requires Admissible(q) && WellNested(GraphOf(q))
    ensures EvalRun(GraphOf(q), o, FsForkMod, last) == Ends <==> FsEnds(q, o)
  {
    var g := GraphOf(q);
    assert g.kind(FsForkMod) == Fork(FsJoinMod, q.fsActive);
    ForkEval(g, o, FsForkMod, last);
    FsVerdict(q, o);
    var v := EvalBranches(g, o, FsForkMod, q.fsActive);
    if v.Arrives? {
      AfterJoinEval(q, o, FsJoinMod, v.state);
    }
  }

  lemma PsEval(q: Request, o: ModId -> Outcome, last: ModState)
    requires Admissible(q) && WellNested(GraphOf(q))
    ensures EvalRun(GraphOf(q), o, PsForkMod, last) == Ends <==> PsEnds(q, o)
  {
    var g := GraphOf(q);
    assert g.kind(PsForkMod) == Fork(PsJoinMod, q.psActive);
    ForkEval(g, o, PsForkMod, last);
    PsVerdict(q, o);
    var v := EvalBranches(g, o, PsForkMod, q.psActive);
    if v.Arrives? {
      AfterJoinEval(q, o, PsJoinMod, v.state);
    }
  }

  lemma HeadRoutes(cfg: Config, st: ModState)
    ensures Next(cfg, GenFsReqMod, st) == Some(if st == MOD_SUCCEED then FsForkMod else EmptyRespMod)
    ensures Next(cfg, GenPsReqMod, st) == Some(if st == MOD_SUCCEED then PsForkMod else EmptyRespMod)
    ensures var to := Next(cfg, ReqMod, st);
            to == Some(GenFsReqMod) || to == Some(GenPsReqMod) || to == Some(RandRespMod) || to == Some(EndMod)
  {
  }

  lemma GeneratorEval(q: Request, o: ModId -> Outcome, gen: ModId, last: ModState)
    requires Admissible(q) && WellNested(GraphOf(q)) && (gen == GenFsReqMod || gen == GenPsReqMod)
    ensures EvalRun(GraphOf(q), o, gen, last) == Ends
            <==> GeneratorEnds(o, gen, if gen == GenFsReqMod then FsEnds(q, o) else PsEnds(q, o))
  {
    var g := GraphOf(q);
    SimpleEval(g, o, gen, last);
    if Answers(o, gen) {
      var st := o(gen).state;
      HeadRoutes(q.cfg, st);
      assert g.next(gen, st) == Next(q.cfg, gen, st);
      if st != MOD_SUCCEED {
        ResponseEval(q, o, EmptyRespMod, st);
      } else if gen == GenFsReqMod {
        FsEval(q, o, st);
      } else {
        PsEval(q, o, st);
      }
    }
  }

  /** The sequential meaning of a request in closed form. */
  lemma RequestMeaning(q: Request, o: ModId -> Outcome)
    requires Admissible(q) && WellNested(GraphOf(q))
    ensures Val(GraphOf(q), o, Top) == Ends <==> RequestEnds(q, o)
  {
    var g := GraphOf(q);
    SimpleEval(g, o, ReqMod, MOD_START);
    if Answers(o, ReqMod) {
      var st := o(ReqMod).state;
      HeadRoutes(q.cfg, st);
      var to := Next(q.cfg, ReqMod, st);
      assert g.next(ReqMod, st) == to;
      if to == Some(GenFsReqMod) || to == Some(GenPsReqMod) {
        GeneratorEval(q, o, to.value, st);
      } else if to == Some(RandRespMod) {
        ResponseEval(q, o, RandRespMod, st);
      } else {
        EndEval(q, o, st);
      }
    }
  }

  // ---------------------------------------------------------------------------------------------
  // Results about every interleaving of a request
  // ---------------------------------------------------------------------------------------------

  /** A request context reaches `_end_request` at most once.  When no callback is left it has done so exactly if
      `RequestEnds`; and if no continuation was dropped, exactly if no fork that it ran was empty. */
  lemma ExampleEndsOnce(q: Request, o: ModId -> Outcome, acts: seq<Action<ModId>>, s: State<ModId>)
    requires Admissible(q) && Led(q, o, acts, s)
    ensures s.ended <= 1
    ensures s.tokens == multiset{} ==> (s.ended == 1 <==> RequestEnds(q, o))
    ensures s.tokens == multiset{} && s.dropped == 0 ==> (s.ended == 1 <==> NoEmptyFork(GraphOf(q), s))
  {
    LedIsReached(q, o, acts, s);
    EndsAtMostOnce(GraphOf(q), o, acts, s);
    if s.tokens == multiset{} {
      ExampleIsWellNested(q);
      QuietMeansMeaning(GraphOf(q), o, acts, s);
      RequestMeaning(q, o);
      if s.dropped == 0 {
        EndsExactlyOnce(GraphOf(q), o, acts, s);
      }
    }
  }

  /** The request comes to a fork that activates no branch. */
  ghost predicate EmptyForkOnTheWay(q: Request, o: ModId -> Outcome) {
    Answers(o, ReqMod) &&
    var to := Next(q.cfg, ReqMod, o(ReqMod).state);
    || (to == Some(GenFsReqMod) && Succeeded(o, GenFsReqMod)
        && (q.fsActive == 0 || exists i: nat :: i < q.fsActive && Succeeded(o, FsMod(i)) && q.subActive(i) == 0))
    || (to == Some(GenPsReqMod) && Succeeded(o, GenPsReqMod) && q.psActive == 0)
  }

  /** When every module continues its request, nothing is dropped, and a request whose callbacks are all done has
      ended exactly if it came to no empty fork. */
  lemma OnlyEmptyForksStrand(q: Request, o: ModId -> Outcome, acts: seq<Action<ModId>>, s: State<ModId>)
    requires Admissible(q) && Led(q, o, acts, s) && s.tokens == multiset{} && forall id: ModId :: Answers(o, id)
    ensures s.dropped == 0 && (s.ended == 1 <==> !EmptyForkOnTheWay(q, o))
  {
    ExampleEndsOnce(q, o, acts, s);
    assert s.dropped == 0 by {
      assert forall id: ModId :: Answers(o, id) ==> o(id).Resumes?;
      assert Unfolded(0);
      NothingDropped(GraphOf(q), o, acts);
    }
    AllAnswer(q, o);
  }

  lemma AllAnswer(q: Request, o: ModId -> Outcome)
    requires forall id: ModId :: Answers(o, id)
    ensures RequestEnds(q, o) <==> !EmptyForkOnTheWay(q, o)
  {
    assert forall id: ModId :: Answers(o, id) ==> o(id).Resumes?;
    HeadRoutes(q.cfg, o(ReqMod).state);
    forall success: bool ensures AfterJoinEnds(q, o, success) {
    }
    forall i: nat ensures ShardIsLost(q, o, i) <==> Succeeded(o, FsMod(i)) && q.subActive(i) == 0 {
    }
  }

  lemma RestFromStart(g: Graph<ModId>, o: ModId -> Outcome) returns (acts: seq<Action<ModId>>, s: State<ModId>)
    requires WellNested(g)
    ensures Reached(g, o, acts, s) && s.tokens == multiset{}
  {
    acts, s := TokenBound.EveryRequestComesToRest(g, o, [], Init(g));
    assert [] + acts == acts;
  }

  lemma ReachedIsLed(q: Request, o: ModId -> Outcome, acts: seq<Action<ModId>>, s: State<ModId>)
    requires Reached(GraphOf(q), o, acts, s)
    ensures Led(q, o, acts, s)
  {
    assert Unfolded(0);
  }

  /** Every request can be brought to rest, and one that meets an empty fork is stranded there: no callback is left,
      none was dropped, and it never ends. */
  lemma StrandedRequest(q: Request, o: ModId -> Outcome) returns (acts: seq<Action<ModId>>, s: State<ModId>)
    requires Admissible(q) && (forall id: ModId :: Answers(o, id)) && EmptyForkOnTheWay(q, o)
    ensures Led(q, o, acts, s) && s.tokens == multiset{} && s.dropped == 0 && s.ended == 0
  {
    ExampleIsWellNested(q);
    acts, s := RestFromStart(GraphOf(q), o);
    ReachedIsLed(q, o, acts, s);
    OnlyEmptyForksStrand(q, o, acts, s);
    ExampleEndsOnce(q, o, acts, s);
  }

  /** Requests that meet an empty fork: the shards', the predictors', and the one nested in the first shard. */
  lemma EmptyForks(cfg: Config, n: nat)
    requires Fits(cfg) && 1 <= n && Width(n, cfg.fsShards)
    requires cfg.toFs != cfg.toPs
    ensures var toFs := (id: ModId) => Resumes(if id == ReqMod then cfg.toFs else MOD_SUCCEED, false);
            var toPs := (id: ModId) => Resumes(if id == ReqMod then cfg.toPs else MOD_SUCCEED, false);
            && EmptyForkOnTheWay(Request(cfg, 0, _ => 0, 0), toFs)
            && EmptyForkOnTheWay(Request(cfg, 0, _ => 0, 0), toPs)
            && EmptyForkOnTheWay(Request(cfg, n, _ => 0, 0), toFs)
            && Admissible(Request(cfg, 0, _ => 0, 0)) && Admissible(Request(cfg, n, _ => 0, 0))
  {
    var toFs := (id: ModId) => Resumes(if id == ReqMod then cfg.toFs else MOD_SUCCEED, false);
    var toPs := (id: ModId) => Resumes(if id == ReqMod then cfg.toPs else MOD_SUCCEED, false);
    assert Next(cfg, ReqMod, cfg.toFs) == Some(GenFsReqMod) && Next(cfg, ReqMod, cfg.toPs) == Some(GenPsReqMod);
    assert Succeeded(toFs, GenFsReqMod) && Succeeded(toPs, GenPsReqMod) && Succeeded(toFs, FsMod(0));
    var q := Request(cfg, n, _ => 0, 0);
    assert 0 < q.fsActive && Succeeded(toFs, FsMod(0)) && q.subActive(0) == 0;
  }

  // ---------------------------------------------------------------------------------------------
  // A connection of the example server
  // ---------------------------------------------------------------------------------------------

  predicate IsIo(id: ModId) {
    id == ReqMod || id == RespMod || id == RandRespMod || id == EmptyRespMod
  }

  /** The request of one context of a server configured with `cfg`. */
  ghost predicate IsRequest(cfg: Config, plan: ContextChain.Plan<ModId>) {
    exists q: Request :: q.cfg == cfg && Admissible(q) && plan.g == GraphOf(q)
  }

  /** All requests that may come to a connection are the server's own, each with its own active branches. */
  ghost predicate AllRequests(cfg: Config, xs: seq<ConnectionRuns.Step<ModId>>) {
    forall x | x in xs && !x.Work? :: IsRequest(cfg, x.m.next)
  }

  lemma RequestIsOk(cfg: Config, plan: ContextChain.Plan<ModId>)
    requires IsRequest(cfg, plan)
    ensures ConnectionRuns.PlanOk(IsIo, plan)
  {
    var q: Request :| q.cfg == cfg && Admissible(q) && plan.g == GraphOf(q);
    ExampleIsWellNested(q);
  }

  /** The steps lead from `c` to `c'`, and the requests that come meanwhile are the server's own. */
  ghost predicate Serves(cfg: Config, c: ConnectionRuns.Conn<ModId>, xs: seq<ConnectionRuns.Step<ModId>>,
      c': ConnectionRuns.Conn<ModId>)
  {
    forall i: int :: Unfolded(i) ==>
      AllRequests(cfg, xs) && ConnectionRuns.Steps(IsIo, c, xs) && c' == ConnectionRuns.AfterSteps(IsIo, c, xs)
  }

  lemma ServesIsLeadsTo(cfg: Config, c: ConnectionRuns.Conn<ModId>, xs: seq<ConnectionRuns.Step<ModId>>,
      c': ConnectionRuns.Conn<ModId>)
    requires Serves(cfg, c, xs, c')
    ensures ConnectionRuns.LeadsTo(IsIo, c, xs, c')
  {
    assert Unfolded(0);
    forall x | x in xs && !x.Work? ensures ConnectionRuns.PlanOk(IsIo, x.m.next) {
      RequestIsOk(cfg, x.m.next);
    }
  }

  /** On a connection of the example server, whatever the active branches of its requests, no request starts after a
      read or a write has failed, timed out or lost its continuation. */
  lemma ExampleConnectionStops(cfg: Config, plan: ContextChain.Plan<ModId>, xs: seq<ConnectionRuns.Step<ModId>>,
      c: ConnectionRuns.Conn<ModId>, j: nat, more: seq<ConnectionRuns.Step<ModId>>, c': ConnectionRuns.Conn<ModId>)
    requires IsRequest(cfg, plan) && Serves(cfg, ConnectionRuns.Accepted(plan), xs, c)
    requires j < |c.io.jobs| && ConnectionRuns.Failed(c.io.jobs[j])
    requires Serves(cfg, c, more, c')
    ensures |c'.chain| == |c.chain|
  {
    RequestIsOk(cfg, plan);
    ServesIsLeadsTo(cfg, ConnectionRuns.Accepted(plan), xs, c);
    ServesIsLeadsTo(cfg, c, more, c');
    ConnectionRuns.FailedIoEndsTheConnection(IsIo, plan, xs, c, j, more, c');
  }
}
