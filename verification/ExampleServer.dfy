/** The example server's backend modules and its two client pools. */
module ExampleServer {
  import opened ModStates
  import opened TokenEngine
  import opened ExampleGraph
  import opened ExampleRequest
  import opened ExampleEnds
  import ContextChain
  import BackendRuns
  import TcpRuns

  // ---------------------------------------------------------------------------------------------
  // Numbering the runs
  // ---------------------------------------------------------------------------------------------

  function Triangle(k: nat): nat {
    if k == 0 then 0 else Triangle(k - 1) + k
  }

  function Pair(a: nat, b: nat): nat {
    Triangle(a + b) + b
  }

  lemma {:induction false} TriangleGrows(k: nat, m: nat)
    requires k < m
    ensures Triangle(k) + k < Triangle(m)
  {
    if k < m - 1 {
      TriangleGrows(k, m - 1);
    }
  }

  lemma PairIsInjective(a: nat, b: nat, c: nat, d: nat)
    requires Pair(a, b) == Pair(c, d)
    ensures a == c && b == d
  {
    if a + b < c + d {
      TriangleGrows(a + b, c + d);
    } else if c + d < a + b {
      TriangleGrows(c + d, a + b);
    }
  }

  /** The family of a module, and its position in the family. */
  function Coordinates(id: ModId): (nat, nat) {
    match id
    case FsMod(i) => (0, i)
    case PsMod(i) => (1, i)
    case PsMod2(i, j) => (2, Pair(i, j))
    case PsForkMod2(i) => (3, i)
    case PsJoinMod2(i) => (4, i)
    case PsBackfillMod2(i, j) => (5, Pair(i, j))
    case PsBackfillMod(i) => (6, i)
    case ReqMod => (7, 0) case GenFsReqMod => (7, 1) case FsForkMod => (7, 2) case FsJoinMod => (7, 3)
    case GenPsReqMod => (7, 4) case PsForkMod => (7, 5) case PsJoinMod => (7, 6)
    case IfRandMod => (7, 7) case RespMod => (7, 8) case RandRespMod => (7, 9) case EmptyRespMod => (7, 10)
    case EndMod => (7, 11)
  }

  lemma CoordinatesAreInjective(x: ModId, y: ModId)
    requires Coordinates(x) == Coordinates(y)
    ensures x == y
  {
    if x.PsMod2? {
      PairIsInjective(x.i, x.j, y.i, y.j);
    } else if x.PsBackfillMod2? {
      PairIsInjective(x.i, x.j, y.i, y.j);
    }
  }

  function RunNumber(context: nat, id: ModId): nat {
    Pair(context, Pair(Coordinates(id).0, Coordinates(id).1))
  }

  lemma RunNumbersAreDistinct(i: nat, x: ModId, k: nat, y: ModId)
    requires RunNumber(i, x) == RunNumber(k, y)
    ensures i == k && x == y
  {
    var (a, b) := Coordinates(x);
    var (c, d) := Coordinates(y);
    PairIsInjective(i, Pair(a, b), k, Pair(c, d));
    PairIsInjective(a, b, c, d);
    CoordinatesAreInjective(x, y);
  }

  // ---------------------------------------------------------------------------------------------
  // The two pools
  // ---------------------------------------------------------------------------------------------

  /** The modules that use the pool of fs connections. */
  predicate UsesFsPool(id: ModId) {
    id.FsMod?
  }

  /** The modules that use the pool of ps connections. */
  predicate UsesPsPool(id: ModId) {
    id.PsMod? || id.PsMod2?
  }

  function SetupFor(isTcp: ModId -> bool, lim: TcpRuns.Limits): BackendRuns.Setup<ModId> {
    BackendRuns.Setup(isTcp, (i, id) => RunNumber(i, id), lim)
  }

  lemma SetupForIsOk(isTcp: ModId -> bool, lim: TcpRuns.Limits)
    ensures BackendRuns.SetupOk(SetupFor(isTcp, lim))
  {
    var u := SetupFor(isTcp, lim);
    forall i: nat, n: ModId, k: nat, m: ModId | u.key(i, n) == u.key(k, m) ensures i == k && n == m {
      RunNumbersAreDistinct(i, n, k, m);
    }
  }

  /** All requests of a server configured with `cfg`, each with its own active branches. */
  ghost predicate AllRequests(cfg: Config, steps: seq<BackendRuns.Step<ModId>>) {
    forall step | step in steps && step.NewContext? :: IsRequest(cfg, step.plan)
  }

  lemma RequestIsOk(cfg: Config, plan: ContextChain.Plan<ModId>, isTcp: ModId -> bool, lim: TcpRuns.Limits)
    requires IsRequest(cfg, plan) && (isTcp == UsesFsPool || isTcp == UsesPsPool)
    ensures BackendRuns.GraphOk(SetupFor(isTcp, lim), plan.g)
  {
    var q: Request :| q.cfg == cfg && Admissible(q) && plan.g == GraphOf(q);
    ExampleIsWellNested(q);
    assert forall n: ModId :: isTcp(n) ==> UsesFsPool(n) || UsesPsPool(n);
  }

  /** Wherever, in any context of the example server, the engine goes on from a backend module of one of the pools, it
      does so with what the module's run has answered; after a success the run has handed its client back. */
  lemma ExampleSeesItsRuns(cfg: Config, isTcp: ModId -> bool, lim: TcpRuns.Limits,
      steps: seq<BackendRuns.Step<ModId>>, s: BackendRuns.Server<ModId>, i: nat, t: Token<ModId>)
    requires (isTcp == UsesFsPool || isTcp == UsesPsPool) && AllRequests(cfg, steps)
    requires BackendRuns.Steps(SetupFor(isTcp, lim), BackendRuns.NewServer(), steps)
    requires s == BackendRuns.AfterSteps(SetupFor(isTcp, lim), BackendRuns.NewServer(), steps)
    requires i < |s.contexts| && t in s.contexts[i].state.tokens && t.place.Leave? && isTcp(t.place.node)
    ensures var r := RunNumber(i, t.place.node);
            && r in s.tcp.runs && BackendRuns.Answered(s.tcp.runs[r], t.place.state)
            && (t.place.state == MOD_SUCCEED ==> s.tcp.runs[r].client.None?)
  {
    var u := SetupFor(isTcp, lim);
    SetupForIsOk(isTcp, lim);
    forall step | step in steps && step.NewContext? ensures BackendRuns.GraphOk(u, step.plan.g) {
      RequestIsOk(cfg, step.plan, isTcp, lim);
    }
    BackendRuns.EngineSeesTheRun(u, steps, s, i, t);
  }
}
