/** The route function of the example graph, and the proof that the built tables implement it. */
module ExampleRoutes {
  import opened ModStates
  import opened FsmLinks
  import opened ExampleGraph
  import opened ExampleBuild

  // ---------------------------------------------------------------------------------------------
  // The routes, read off the picture in the source
  // ---------------------------------------------------------------------------------------------

  /** Module `id` exists in a server configured with `cfg`. */
  predicate Exists(cfg: Config, id: ModId) {
    match id
    case FsMod(i) => i < cfg.fsShards
    case PsForkMod2(i) => i < cfg.fsShards
    case PsJoinMod2(i) => i < cfg.fsShards
    case PsMod2(i, j) => i < cfg.fsShards && j < cfg.subModels
    case PsBackfillMod2(i, j) => i < cfg.fsShards && j < cfg.subModels
    case PsMod(i) => i < cfg.subModels * cfg.psShards
    case PsBackfillMod(i) => i < cfg.subModels * cfg.psShards
    case _ => true
  }

  /** A module that goes one way on success and another way otherwise. */
  function Either(st: ModState, success: ModId, otherwise: ModId): Option<ModId> {
    if st == MOD_SUCCEED then Some(success) else if st == MOD_ELSE then Some(otherwise) else None
  }

  /** The link under exactly this state. */
  function Exact(cfg: Config, id: ModId, st: ModState): Option<ModId> {
    if !Exists(cfg, id) then None else
    match id
    case ReqMod =>
      if st == cfg.toFs then Some(GenFsReqMod)
      else if st == cfg.toPs then Some(GenPsReqMod)
      else if st == cfg.toRandom then Some(RandRespMod)
      else if st == MOD_ELSE then Some(EndMod) else None
    case GenFsReqMod => Either(st, FsForkMod, EmptyRespMod)
    case FsForkMod => if MOD_FORK0 <= st < MOD_FORK0 + cfg.fsShards then Some(FsMod(st - MOD_FORK0)) else None
    case FsMod(i) => Either(st, PsForkMod2(i), FsJoinMod)
    case PsForkMod2(i) => if MOD_FORK0 <= st < MOD_FORK0 + cfg.subModels then Some(PsMod2(i, st - MOD_FORK0)) else None
    case PsMod2(i, j) => Either(st, PsJoinMod2(i), PsBackfillMod2(i, j))
    case PsBackfillMod2(i, j) => Either(st, PsJoinMod2(i), PsJoinMod2(i))
    case PsJoinMod2(i) => Either(st, FsJoinMod, FsJoinMod)
    case FsJoinMod => Either(st, IfRandMod, EmptyRespMod)
    case GenPsReqMod => Either(st, PsForkMod, EmptyRespMod)
    case PsForkMod => if MOD_FORK0 <= st < MOD_FORK0 + cfg.subModels * cfg.psShards
                      then Some(PsMod(st - MOD_FORK0)) else None
    case PsMod(i) => Either(st, PsJoinMod, PsBackfillMod(i))
    case PsBackfillMod(i) => Either(st, PsJoinMod, PsJoinMod)
    case PsJoinMod => Either(st, IfRandMod, EmptyRespMod)
    case IfRandMod => if st == cfg.notRand then Some(RespMod) else if st == cfg.rand then Some(RandRespMod) else None
    case RespMod => Either(st, EndMod, EndMod)
    case RandRespMod => Either(st, EndMod, EndMod)
    case EmptyRespMod => Either(st, EndMod, EndMod)
    case EndMod => None
  }

  /** Where the Fsm goes from `id` in state `st`. */
  function Next(cfg: Config, id: ModId, st: ModState): Option<ModId> {
    if Exact(cfg, id, st).Some? then Exact(cfg, id, st) else Exact(cfg, id, MOD_ELSE)
  }

  // ---------------------------------------------------------------------------------------------
  // Searching a block of calls
  // ---------------------------------------------------------------------------------------------

  function OrElse<T>(a: Option<T>, b: Option<T>): Option<T> {
    if a.Some? then a else b
  }

  function Pick(c: Step, id: ModId, st: ModState): Option<ModId> {
    if c.Edge? && c.from == id && c.state == st then Some(c.to) else None
  }

  function Find(calls: seq<Step>, id: ModId, st: ModState): Option<ModId> {
    if calls == [] then None else OrElse(Pick(calls[0], id, st), Find(calls[1..], id, st))
  }

  lemma {:induction false} FindConcat(a: seq<Step>, b: seq<Step>, id: ModId, st: ModState)
    ensures Find(a + b, id, st) == OrElse(Find(a, id, st), Find(b, id, st))
  {
    if a == [] {
      assert a + b == b;
    } else {
      assert (a + b)[1..] == a[1..] + b;
      FindConcat(a[1..], b, id, st);
    }
  }

  lemma Find3(x: seq<Step>, id: ModId, st: ModState)
    requires |x| == 3
    ensures Find(x, id, st) == OrElse(Pick(x[0], id, st), OrElse(Pick(x[1], id, st), Pick(x[2], id, st)))
  {
    assert x[1..][1..] == x[2..] && x[2..][1..] == [];
    assert Find(x[2..], id, st) == OrElse(Pick(x[2], id, st), None);
    assert Find(x[1..], id, st) == OrElse(Pick(x[1], id, st), Find(x[2..], id, st));
  }

  lemma Find5(x: seq<Step>, id: ModId, st: ModState)
    requires |x| == 5
    ensures Find(x, id, st) == OrElse(Pick(x[0], id, st), OrElse(Pick(x[1], id, st),
              OrElse(Pick(x[2], id, st), OrElse(Pick(x[3], id, st), Pick(x[4], id, st)))))
  {
    assert x[1..][1..] == x[2..];
    Find3(x[2..], id, st);
  }

  lemma Find6(x: seq<Step>, id: ModId, st: ModState)
    requires |x| == 6
    ensures Find(x, id, st) == OrElse(Pick(x[0], id, st), OrElse(Pick(x[1], id, st), OrElse(Pick(x[2], id, st),
              OrElse(Pick(x[3], id, st), OrElse(Pick(x[4], id, st), Pick(x[5], id, st))))))
  {
    Find5(x[1..], id, st);
  }

  lemma Find7(x: seq<Step>, id: ModId, st: ModState)
    requires |x| == 7
    ensures Find(x, id, st) == OrElse(Pick(x[0], id, st), OrElse(Pick(x[1], id, st), OrElse(Pick(x[2], id, st),
              OrElse(Pick(x[3], id, st), OrElse(Pick(x[4], id, st), OrElse(Pick(x[5], id, st), Pick(x[6], id, st)))))))
  {
    Find6(x[1..], id, st);
  }

  // ---------------------------------------------------------------------------------------------
  // What each loop contributes
  // ---------------------------------------------------------------------------------------------

  function SubModelsExact(i: nat, n: nat, id: ModId, st: ModState): Option<ModId> {
    if id == PsForkMod2(i) && MOD_FORK0 <= st < MOD_FORK0 + n then Some(PsMod2(i, st - MOD_FORK0))
    else if id.PsMod2? && id.i == i && id.j < n then Either(st, PsJoinMod2(i), PsBackfillMod2(i, id.j))
    else if id.PsBackfillMod2? && id.i == i && id.j < n then Either(st, PsJoinMod2(i), PsJoinMod2(i))
    else None
  }

  /** What one iteration of the sub-model loop contributes. */
  function SubModelExact(i: nat, j: nat, id: ModId, st: ModState): Option<ModId> {
    if id == PsForkMod2(i) && st == MOD_FORK0 + j then Some(PsMod2(i, j))
    else if id == PsMod2(i, j) then Either(st, PsJoinMod2(i), PsBackfillMod2(i, j))
    else if id == PsBackfillMod2(i, j) then Either(st, PsJoinMod2(i), PsJoinMod2(i))
    else None
  }

  lemma SubModelFind(i: nat, j: nat, id: ModId, st: ModState)
    requires j < 0x8000_0000
    ensures Find(SubModelCalls(i, j), id, st) == SubModelExact(i, j, id, st)
  {
    Find7(SubModelCalls(i, j), id, st);
  }

  lemma OneMoreSubModel(i: nat, n: nat, id: ModId, st: ModState)
    requires n > 0
    ensures OrElse(SubModelsExact(i, n - 1, id, st), SubModelExact(i, n - 1, id, st)) == SubModelsExact(i, n, id, st)
  {
  }

  lemma {:induction false} SubModelsFind(i: nat, n: nat, id: ModId, st: ModState)
    requires n < 0x8000_0000
    ensures Find(SubModelsCalls(i, n), id, st) == SubModelsExact(i, n, id, st)
  {
    if n > 0 {
      SubModelsFind(i, n - 1, id, st);
      FindConcat(SubModelsCalls(i, n - 1), SubModelCalls(i, n - 1), id, st);
      SubModelFind(i, n - 1, id, st);
      OneMoreSubModel(i, n, id, st);
    }
  }

  function ShardsExact(cfg: Config, n: nat, id: ModId, st: ModState): Option<ModId> {
    match id
    case FsForkMod => if MOD_FORK0 <= st < MOD_FORK0 + n then Some(FsMod(st - MOD_FORK0)) else None
    case FsMod(i) => if i < n then Either(st, PsForkMod2(i), FsJoinMod) else None
    case PsJoinMod2(i) => if i < n then Either(st, FsJoinMod, FsJoinMod) else None
    case PsForkMod2(i) => if i < n then SubModelsExact(i, cfg.subModels, id, st) else None
    case PsMod2(i, _) => if i < n then SubModelsExact(i, cfg.subModels, id, st) else None
    case PsBackfillMod2(i, _) => if i < n then SubModelsExact(i, cfg.subModels, id, st) else None
    case _ => None
  }

  lemma ShardHeadFind(i: nat, id: ModId, st: ModState)
    requires i < 0x8000_0000
    ensures Find(ShardHead(i), id, st) ==
            if id == FsForkMod && st == MOD_FORK0 + i then Some(FsMod(i))
            else if id == FsMod(i) && st == MOD_SUCCEED then Some(PsForkMod2(i)) else None
  {
    Find5(ShardHead(i), id, st);
  }

  lemma ShardTailFind(i: nat, id: ModId, st: ModState)
    ensures Find(ShardTail(i), id, st) ==
            if id == PsJoinMod2(i) then Either(st, FsJoinMod, FsJoinMod)
            else if id == FsMod(i) && st == MOD_ELSE then Some(FsJoinMod) else None
  {
    Find3(ShardTail(i), id, st);
  }

  /** What one iteration of the shard loop contributes. */
  function ShardExact(cfg: Config, i: nat, id: ModId, st: ModState): Option<ModId> {
    if id == FsForkMod && st == MOD_FORK0 + i then Some(FsMod(i))
    else if id == FsMod(i) then Either(st, PsForkMod2(i), FsJoinMod)
    else if id == PsJoinMod2(i) then Either(st, FsJoinMod, FsJoinMod)
    else SubModelsExact(i, cfg.subModels, id, st)
  }

  lemma ShardFind(cfg: Config, i: nat, id: ModId, st: ModState)
    requires i < 0x8000_0000 && cfg.subModels < 0x8000_0000
    ensures Find(ShardCalls(cfg, i), id, st) == ShardExact(cfg, i, id, st)
  {
    FindConcat(ShardHead(i) + SubModelsCalls(i, cfg.subModels), ShardTail(i), id, st);
    FindConcat(ShardHead(i), SubModelsCalls(i, cfg.subModels), id, st);
    SubModelsFind(i, cfg.subModels, id, st);
    ShardHeadFind(i, id, st);
    ShardTailFind(i, id, st);
  }

  lemma OneMoreShard(cfg: Config, n: nat, id: ModId, st: ModState)
    requires n > 0
    ensures OrElse(ShardsExact(cfg, n - 1, id, st), ShardExact(cfg, n - 1, id, st)) == ShardsExact(cfg, n, id, st)
  {
  }

  lemma {:induction false} ShardsFind(cfg: Config, n: nat, id: ModId, st: ModState)
    requires n < 0x8000_0000 && cfg.subModels < 0x8000_0000
    ensures Find(ShardsCalls(cfg, n), id, st) == ShardsExact(cfg, n, id, st)
  {
    if n > 0 {
      ShardsFind(cfg, n - 1, id, st);
      FindConcat(ShardsCalls(cfg, n - 1), ShardCalls(cfg, n - 1), id, st);
      ShardFind(cfg, n - 1, id, st);
      OneMoreShard(cfg, n, id, st);
    }
  }

  function AllPsExact(n: nat, id: ModId, st: ModState): Option<ModId> {
    match id
    case PsForkMod => if MOD_FORK0 <= st < MOD_FORK0 + n then Some(PsMod(st - MOD_FORK0)) else None
    case PsMod(i) => if i < n then Either(st, PsJoinMod, PsBackfillMod(i)) else None
    case PsBackfillMod(i) => if i < n then Either(st, PsJoinMod, PsJoinMod) else None
    case _ => None
  }

  lemma {:induction false} AllPsFind(n: nat, id: ModId, st: ModState)
    requires n < 0x8000_0000
    ensures Find(AllPsCalls(n), id, st) == AllPsExact(n, id, st)
  {
    if n > 0 {
      AllPsFind(n - 1, id, st);
      FindConcat(AllPsCalls(n - 1), PsCalls(n - 1), id, st);
      Find7(PsCalls(n - 1), id, st);
    }
  }

  lemma HeadFind(cfg: Config, id: ModId, st: ModState)
    ensures Find(HeadCalls(cfg), id, st) ==
            if id == ReqMod && st == cfg.toFs then Some(GenFsReqMod)
            else if id == GenFsReqMod && st == MOD_SUCCEED then Some(FsForkMod) else None
  {
    Find6(HeadCalls(cfg), id, st);
  }

  lemma MiddleFind(cfg: Config, id: ModId, st: ModState)
    ensures Find(MiddleCalls(cfg), id, st) ==
            if id == ReqMod && st == cfg.toPs then Some(GenPsReqMod)
            else if id == GenPsReqMod && st == MOD_SUCCEED then Some(PsForkMod) else None
  {
    Find5(MiddleCalls(cfg), id, st);
  }

  /** The straight-line code after the loops. */
  function TailExact(cfg: Config, id: ModId, st: ModState): Option<ModId> {
    match id
    case FsJoinMod => Either(st, IfRandMod, EmptyRespMod)
    case PsJoinMod => Either(st, IfRandMod, EmptyRespMod)
    case IfRandMod => if st == cfg.notRand then Some(RespMod) else if st == cfg.rand then Some(RandRespMod) else None
    case ReqMod => if st == cfg.toRandom then Some(RandRespMod) else if st == MOD_ELSE then Some(EndMod) else None
    case GenFsReqMod => if st == MOD_ELSE then Some(EmptyRespMod) else None
    case GenPsReqMod => if st == MOD_ELSE then Some(EmptyRespMod) else None
    case RespMod => Either(st, EndMod, EndMod)
    case RandRespMod => Either(st, EndMod, EndMod)
    case EmptyRespMod => Either(st, EndMod, EndMod)
    case _ => None
  }

  function RandomExact(cfg: Config, id: ModId, st: ModState): Option<ModId> {
    if (id == FsJoinMod || id == PsJoinMod) && st == MOD_SUCCEED then Some(IfRandMod)
    else if id == IfRandMod && st == cfg.notRand then Some(RespMod) else None
  }

  function ResponseExact(cfg: Config, id: ModId, st: ModState): Option<ModId> {
    if id == IfRandMod && st == cfg.rand then Some(RandRespMod)
    else if id == ReqMod && st == cfg.toRandom then Some(RandRespMod)
    else if (id == FsJoinMod || id == PsJoinMod) && st == MOD_ELSE then Some(EmptyRespMod) else None
  }

  function EndExact(id: ModId, st: ModState): Option<ModId> {
    if id == RespMod || id == RandRespMod || id == EmptyRespMod then Either(st, EndMod, EndMod) else None
  }

  function FallbackExact(id: ModId, st: ModState): Option<ModId> {
    if st != MOD_ELSE then None
    else if id == ReqMod then Some(EndMod)
    else if id == GenFsReqMod || id == GenPsReqMod then Some(EmptyRespMod) else None
  }

  lemma RandomFind(cfg: Config, id: ModId, st: ModState)
    ensures Find(RandomCalls(cfg), id, st) == RandomExact(cfg, id, st)
  {
    Find5(RandomCalls(cfg), id, st);
  }

  lemma ResponseFind(cfg: Config, id: ModId, st: ModState)
    ensures Find(ResponseCalls(cfg), id, st) == ResponseExact(cfg, id, st)
  {
    Find6(ResponseCalls(cfg), id, st);
  }

  lemma EndFind(id: ModId, st: ModState)
    ensures Find(EndCalls(), id, st) == EndExact(id, st)
  {
    Find7(EndCalls(), id, st);
  }

  lemma FallbackFind(id: ModId, st: ModState)
    ensures Find(FallbackCalls(), id, st) == FallbackExact(id, st)
  {
    Find3(FallbackCalls(), id, st);
  }

  lemma TailCombines(cfg: Config, id: ModId, st: ModState)
    ensures OrElse(RandomExact(cfg, id, st),
        OrElse(ResponseExact(cfg, id, st), OrElse(EndExact(id, st), FallbackExact(id, st))))
            == TailExact(cfg, id, st)
  {
  }

  lemma ExampleSplit(cfg: Config, id: ModId, st: ModState)
    requires Fits(cfg)
    ensures Find(ExampleCalls(cfg), id, st) ==
            OrElse(Find(HeadCalls(cfg), id, st), OrElse(ShardsExact(cfg, cfg.fsShards, id, st),
              OrElse(Find(MiddleCalls(cfg), id, st),
                  OrElse(AllPsExact(cfg.PsWidth(), id, st), TailExact(cfg, id, st)))))
  {
    var a, b, c, d := HeadCalls(cfg), ShardsCalls(cfg, cfg.fsShards), MiddleCalls(cfg), AllPsCalls(cfg.PsWidth());
    var e, f, g, h := RandomCalls(cfg), ResponseCalls(cfg), EndCalls(), FallbackCalls();
    FindConcat(a + b + c + d + e + f + g, h, id, st);
    FindConcat(a + b + c + d + e + f, g, id, st);
    FindConcat(a + b + c + d + e, f, id, st);
    FindConcat(a + b + c + d, e, id, st);
    FindConcat(a + b + c, d, id, st);
    FindConcat(a + b, c, id, st);
    FindConcat(a, b, id, st);
    ShardsFind(cfg, cfg.fsShards, id, st);
    AllPsFind(cfg.PsWidth(), id, st);
    RandomFind(cfg, id, st);
    ResponseFind(cfg, id, st);
    EndFind(id, st);
    FallbackFind(id, st);
    TailCombines(cfg, id, st);
  }

  /** The calls made by the loops contain exactly the links of the picture. */
  lemma ExampleFind(cfg: Config, id: ModId, st: ModState)
    requires Fits(cfg)
    ensures Find(ExampleCalls(cfg), id, st) == Exact(cfg, id, st)
  {
    ExampleSplit(cfg, id, st);
    HeadFind(cfg, id, st);
    MiddleFind(cfg, id, st);
  }

  // ---------------------------------------------------------------------------------------------
  // From identities to names
  // ---------------------------------------------------------------------------------------------

  function ModOf(r: Option<ModId>): Option<Module<ModId>> {
    match r
    case None => None
    case Some(id) => Some(Mod(id))
  }

  lemma {:induction false} FindByName(steps: seq<Step>, id: ModId, st: ModState)
    ensures EarliestLink(Named(steps), Name(id), st) == ModOf(Find(steps, id, st))
  {
    if steps != [] {
      assert Named(steps)[1..] == Named(steps[1..]);
      FindByName(steps[1..], id, st);
      if steps[0].Edge? && Name(steps[0].from) == Name(id) {
        NamesAreDistinct(steps[0].from, id);
      }
    }
  }

  lemma {:induction false} SubModelRegistered(i: nat, n: nat, j: nat)
    requires j < n < 0x8000_0000
    ensures Reg(PsMod2(i, j)) in SubModelsCalls(i, n) && Reg(PsBackfillMod2(i, j)) in SubModelsCalls(i, n)
  {
    if j == n - 1 {
      assert SubModelCalls(i, j)[0] == Reg(PsMod2(i, j)) && SubModelCalls(i, j)[3] == Reg(PsBackfillMod2(i, j));
    } else {
      SubModelRegistered(i, n - 1, j);
    }
  }

  lemma {:induction false} ShardRegistered(cfg: Config, n: nat, i: nat, x: Step)
    requires i < n < 0x8000_0000 && cfg.subModels < 0x8000_0000 && x in ShardCalls(cfg, i)
    ensures x in ShardsCalls(cfg, n)
  {
    if i < n - 1 {
      ShardRegistered(cfg, n - 1, i, x);
    }
  }

  lemma {:induction false} PsRegistered(n: nat, i: nat)
    requires i < n < 0x8000_0000
    ensures Reg(PsMod(i)) in AllPsCalls(n) && Reg(PsBackfillMod(i)) in AllPsCalls(n)
  {
    if i == n - 1 {
      assert PsCalls(i)[0] == Reg(PsMod(i)) && PsCalls(i)[2] == Reg(PsBackfillMod(i));
    } else {
      PsRegistered(n - 1, i);
    }
  }

  /** Every module that exists under the configuration is registered. */
  lemma AllRegistered(cfg: Config, id: ModId)
    requires Fits(cfg) && Exists(cfg, id)
    ensures Reg(id) in ExampleCalls(cfg)
  {
    match id
    case FsMod(i) => assert ShardHead(i)[0] == Reg(id); ShardRegistered(cfg, cfg.fsShards, i, Reg(id));
    case PsForkMod2(i) => assert ShardHead(i)[2] == Reg(id); ShardRegistered(cfg, cfg.fsShards, i, Reg(id));
    case PsJoinMod2(i) => assert ShardHead(i)[4] == Reg(id); ShardRegistered(cfg, cfg.fsShards, i, Reg(id));
    case PsMod2(i, j) => SubModelRegistered(i, cfg.subModels, j); ShardRegistered(cfg, cfg.fsShards, i, Reg(id));
    case PsBackfillMod2(i, j) => SubModelRegistered(i, cfg.subModels, j);
        ShardRegistered(cfg, cfg.fsShards, i, Reg(id));
    case PsMod(i) => PsRegistered(cfg.PsWidth(), i);
    case PsBackfillMod(i) => PsRegistered(cfg.PsWidth(), i);
    case ReqMod => assert HeadCalls(cfg)[0] == Reg(id);
    case GenFsReqMod => assert HeadCalls(cfg)[1] == Reg(id);
    case FsForkMod => assert HeadCalls(cfg)[3] == Reg(id);
    case FsJoinMod => assert HeadCalls(cfg)[5] == Reg(id);
    case GenPsReqMod => assert MiddleCalls(cfg)[0] == Reg(id);
    case PsForkMod => assert MiddleCalls(cfg)[2] == Reg(id);
    case PsJoinMod => assert MiddleCalls(cfg)[4] == Reg(id);
    case IfRandMod => assert RandomCalls(cfg)[0] == Reg(id);
    case RespMod => assert RandomCalls(cfg)[3] == Reg(id);
    case RandRespMod => assert ResponseCalls(cfg)[0] == Reg(id);
    case EmptyRespMod => assert ResponseCalls(cfg)[3] == Reg(id);
    case EndMod => assert EndCalls()[0] == Reg(id);
  }

  lemma {:induction false} NextExists(cfg: Config, id: ModId, st: ModState)
    ensures Exact(cfg, id, st).Some? ==> Exists(cfg, Exact(cfg, id, st).value)
  {
  }

  lemma NoNameTwice(cfg: Config)
    requires Fits(cfg)
    ensures UniqueNames(Named(ExampleCalls(cfg)))
  {
    var calls := Named(ExampleCalls(cfg));
    forall c, d | c in calls && d in calls && c.Add? && d.Add? && c.mod.name == d.mod.name ensures c == d {
      assert c.mod == Mod(c.mod.self) && d.mod == Mod(d.mod.self);
      NamesAreDistinct(c.mod.self, d.mod.self);
    }
  }

  lemma ExactResolves(cfg: Config, id: ModId, st: ModState)
    requires Fits(cfg)
    ensures var calls := Named(ExampleCalls(cfg)); var t := ConfigureAll(EmptyTables(), calls);
            && EarliestLink(calls, Name(id), st) == ModOf(Exact(cfg, id, st))
            && (Exact(cfg, id, st).Some? ==> Pointer(t, Name(Exact(cfg, id, st).value)) == ModOf(Exact(cfg, id, st)))
  {
    var calls := Named(ExampleCalls(cfg));
    ExampleFind(cfg, id, st);
    FindByName(ExampleCalls(cfg), id, st);
    if Exact(cfg, id, st).Some? {
      var to := Exact(cfg, id, st).value;
      NextExists(cfg, id, st);
      AllRegistered(cfg, to);
      var k :| 0 <= k < |ExampleCalls(cfg)| && ExampleCalls(cfg)[k] == Reg(to);
      assert calls[k] == Add(Mod(to));
      NoNameTwice(cfg);
      RegisteredIsFound(calls, Mod(to));
    }
  }

  /** The tables `main` builds send every module, in every state, where the picture says. */
  lemma ExampleIsRouted(cfg: Config, id: ModId, st: ModState)
    requires Fits(cfg)
    ensures var t := ConfigureAll(EmptyTables(), Named(ExampleCalls(cfg)));
            match Successor(t, Name(id), st)
            case None => Next(cfg, id, st) == None
            case Some(name) => Pointer(t, name) == ModOf(Next(cfg, id, st)) && Next(cfg, id, st).Some?
  {
    var calls := Named(ExampleCalls(cfg));
    ExactResolves(cfg, id, st);
    ExactResolves(cfg, id, MOD_ELSE);
    TablesHoldEarliest(calls, Name(id), st);
    TablesHoldEarliest(calls, Name(id), MOD_ELSE);
  }
}
