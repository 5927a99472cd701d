/** The configuration part of the example's `main`: the calls it makes to the Fsm, and the loops that make them. */
module ExampleBuild {
  import opened ModStates
  import opened FsmLinks
  import opened ExampleGraph

  /** The size flags are C++ `int`s, and so is the product of two of them. */
  ghost predicate Fits(cfg: Config) {
    cfg.fsShards < 0x8000_0000 && cfg.subModels < 0x8000_0000 && cfg.PsWidth() < 0x8000_0000
  }

  function Mod(id: ModId): Module<ModId> {
    Module(Name(id), id)
  }

  /** A configuration call of the example, by module identity. */
  datatype Step = Reg(id: ModId) | Edge(from: ModId, to: ModId, state: ModState)

  function ToCall(x: Step): Call<ModId> {
    match x
    case Reg(id) => Add(Mod(id))
    case Edge(from, to, state) => Link(Mod(from), Mod(to), state)
  }

  function Named(steps: seq<Step>): (calls: seq<Call<ModId>>)
    ensures |calls| == |steps| && forall k | 0 <= k < |steps| :: calls[k] == ToCall(steps[k])
  {
    seq(|steps|, k requires 0 <= k < |steps| => ToCall(steps[k]))
  }

  lemma NamedConcat(a: seq<Step>, b: seq<Step>)
    ensures Named(a + b) == Named(a) + Named(b)
  {
  }

  // ---------------------------------------------------------------------------------------------
  // The calls, block by block
  // ---------------------------------------------------------------------------------------------

  function HeadCalls(cfg: Config): seq<Step> {
    [Reg(ReqMod), Reg(GenFsReqMod), Edge(ReqMod, GenFsReqMod, cfg.toFs),
     Reg(FsForkMod), Edge(GenFsReqMod, FsForkMod, MOD_SUCCEED), Reg(FsJoinMod)]
  }

  function SubModelCalls(i: nat, j: nat): seq<Step>
    requires j < 0x8000_0000
  {
    [Reg(PsMod2(i, j)),
     Edge(PsForkMod2(i), PsMod2(i, j), MOD_FORK0 + j),
     Edge(PsMod2(i, j), PsJoinMod2(i), MOD_SUCCEED),
     Reg(PsBackfillMod2(i, j)),
     Edge(PsMod2(i, j), PsBackfillMod2(i, j), MOD_ELSE),
     Edge(PsBackfillMod2(i, j), PsJoinMod2(i), MOD_SUCCEED),
     Edge(PsBackfillMod2(i, j), PsJoinMod2(i), MOD_ELSE)]
  }

  function SubModelsCalls(i: nat, n: nat): seq<Step>
    requires n <= 0x8000_0000
  {
    if n == 0 then [] else SubModelsCalls(i, n - 1) + SubModelCalls(i, n - 1)
  }

  function ShardHead(i: nat): seq<Step>
    requires i < 0x8000_0000
  {
    [Reg(FsMod(i)), Edge(FsForkMod, FsMod(i), MOD_FORK0 + i),
     Reg(PsForkMod2(i)), Edge(FsMod(i), PsForkMod2(i), MOD_SUCCEED),
     Reg(PsJoinMod2(i))]
  }

  function ShardTail(i: nat): seq<Step> {
    [Edge(PsJoinMod2(i), FsJoinMod, MOD_SUCCEED),
     Edge(PsJoinMod2(i), FsJoinMod, MOD_ELSE),
     Edge(FsMod(i), FsJoinMod, MOD_ELSE)]
  }

  function ShardCalls(cfg: Config, i: nat): seq<Step>
    requires i < 0x8000_0000 && cfg.subModels <= 0x8000_0000
  {
    ShardHead(i) + SubModelsCalls(i, cfg.subModels) + ShardTail(i)
  }

  function ShardsCalls(cfg: Config, n: nat): seq<Step>
    requires n <= 0x8000_0000 && cfg.subModels <= 0x8000_0000
  {
    if n == 0 then [] else ShardsCalls(cfg, n - 1) + ShardCalls(cfg, n - 1)
  }

  function MiddleCalls(cfg: Config): seq<Step> {
    [Reg(GenPsReqMod), Edge(ReqMod, GenPsReqMod, cfg.toPs),
     Reg(PsForkMod), Edge(GenPsReqMod, PsForkMod, MOD_SUCCEED), Reg(PsJoinMod)]
  }

  function PsCalls(i: nat): seq<Step>
    requires i < 0x8000_0000
  {
    [Reg(PsMod(i)), Edge(PsForkMod, PsMod(i), MOD_FORK0 + i),
     Reg(PsBackfillMod(i)),
     Edge(PsMod(i), PsJoinMod, MOD_SUCCEED), Edge(PsMod(i), PsBackfillMod(i), MOD_ELSE),
     Edge(PsBackfillMod(i), PsJoinMod, MOD_SUCCEED), Edge(PsBackfillMod(i), PsJoinMod, MOD_ELSE)]
  }

  function AllPsCalls(n: nat): seq<Step>
    requires n <= 0x8000_0000
  {
    if n == 0 then [] else AllPsCalls(n - 1) + PsCalls(n - 1)
  }

  function RandomCalls(cfg: Config): seq<Step> {
    [Reg(IfRandMod), Edge(FsJoinMod, IfRandMod, MOD_SUCCEED), Edge(PsJoinMod, IfRandMod, MOD_SUCCEED),
     Reg(RespMod), Edge(IfRandMod, RespMod, cfg.notRand)]
  }

  function ResponseCalls(cfg: Config): seq<Step> {
    [Reg(RandRespMod), Edge(IfRandMod, RandRespMod, cfg.rand), Edge(ReqMod, RandRespMod, cfg.toRandom),
     Reg(EmptyRespMod), Edge(FsJoinMod, EmptyRespMod, MOD_ELSE), Edge(PsJoinMod, EmptyRespMod, MOD_ELSE)]
  }

  function EndCalls(): seq<Step> {
    [Reg(EndMod),
     Edge(RespMod, EndMod, MOD_SUCCEED), Edge(RespMod, EndMod, MOD_ELSE),
     Edge(RandRespMod, EndMod, MOD_SUCCEED), Edge(RandRespMod, EndMod, MOD_ELSE),
     Edge(EmptyRespMod, EndMod, MOD_SUCCEED), Edge(EmptyRespMod, EndMod, MOD_ELSE)]
  }

  function FallbackCalls(): seq<Step> {
    [Edge(ReqMod, EndMod, MOD_ELSE), Edge(GenFsReqMod, EmptyRespMod, MOD_ELSE),
        Edge(GenPsReqMod, EmptyRespMod, MOD_ELSE)]
  }

  function ExampleCalls(cfg: Config): seq<Step>
    requires Fits(cfg)
  {
    HeadCalls(cfg) + ShardsCalls(cfg, cfg.fsShards) + MiddleCalls(cfg) + AllPsCalls(cfg.PsWidth())
    + RandomCalls(cfg) + ResponseCalls(cfg) + EndCalls() + FallbackCalls()
  }

  // ---------------------------------------------------------------------------------------------
  // The code that makes them
  // ---------------------------------------------------------------------------------------------

  // Appending one call at a time is appending the block.

  lemma Appended3<T>(s: seq<T>, xs: seq<T>)
    requires |xs| == 3
    ensures s + [xs[0]] + [xs[1]] + [xs[2]] == s + xs
  {
  }

  lemma Appended5<T>(s: seq<T>, xs: seq<T>)
    requires |xs| == 5
    ensures s + [xs[0]] + [xs[1]] + [xs[2]] + [xs[3]] + [xs[4]] == s + xs
  {
  }

  lemma Appended6<T>(s: seq<T>, xs: seq<T>)
    requires |xs| == 6
    ensures s + [xs[0]] + [xs[1]] + [xs[2]] + [xs[3]] + [xs[4]] + [xs[5]] == s + xs
  {
  }

  lemma Appended7<T>(s: seq<T>, xs: seq<T>)
    requires |xs| == 7
    ensures s + [xs[0]] + [xs[1]] + [xs[2]] + [xs[3]] + [xs[4]] + [xs[5]] + [xs[6]] == s + xs
  {
  }

  lemma Extended(calls: seq<Call<ModId>>, a: seq<Step>, b: seq<Step>)
    ensures calls + Named(a) + Named(b) == calls + Named(a + b)
  {
    NamedConcat(a, b);
  }

  method BuildSubModel(fsm: Fsm<ModId>, i: nat, j: nat)
    requires fsm.Configured() && j < 0x8000_0000
    modifies fsm
    ensures fsm.Configured() && fsm.calls == old(fsm.calls) + Named(SubModelCalls(i, j))
  {
    Appended7(fsm.calls, Named(SubModelCalls(i, j)));
    var psMod2, psForkMod2, psJoinMod2 := Mod(PsMod2(i, j)), Mod(PsForkMod2(i)), Mod(PsJoinMod2(i));
    fsm.AddModule(psMod2);
    fsm.LinkModule(psForkMod2, psMod2, MOD_FORK0 + j);
    fsm.LinkModule(psMod2, psJoinMod2, MOD_SUCCEED);
    var psBackfillMod2 := Mod(PsBackfillMod2(i, j));
    fsm.AddModule(psBackfillMod2);
    fsm.LinkModule(psMod2, psBackfillMod2, MOD_ELSE);
    fsm.LinkModule(psBackfillMod2, psJoinMod2, MOD_SUCCEED);
    fsm.LinkModule(psBackfillMod2, psJoinMod2, MOD_ELSE);
  }

  method BuildShardHead(fsm: Fsm<ModId>, i: nat)
    requires fsm.Configured() && i < 0x8000_0000
    modifies fsm
    ensures fsm.Configured() && fsm.calls == old(fsm.calls) + Named(ShardHead(i))
  {
    Appended5(fsm.calls, Named(ShardHead(i)));
    var fsMod, psForkMod2 := Mod(FsMod(i)), Mod(PsForkMod2(i));
    fsm.AddModule(fsMod);
    fsm.LinkModule(Mod(FsForkMod), fsMod, MOD_FORK0 + i);
    fsm.AddModule(psForkMod2);
    fsm.LinkModule(fsMod, psForkMod2, MOD_SUCCEED);
    fsm.AddModule(Mod(PsJoinMod2(i)));
  }

  method BuildShardTail(fsm: Fsm<ModId>, i: nat)
    requires fsm.Configured()
    modifies fsm
    ensures fsm.Configured() && fsm.calls == old(fsm.calls) + Named(ShardTail(i))
  {
    Appended3(fsm.calls, Named(ShardTail(i)));
    var psJoinMod2, fsJoinMod := Mod(PsJoinMod2(i)), Mod(FsJoinMod);
    fsm.LinkModule(psJoinMod2, fsJoinMod, MOD_SUCCEED);
    fsm.LinkModule(psJoinMod2, fsJoinMod, MOD_ELSE);
    fsm.LinkModule(Mod(FsMod(i)), fsJoinMod, MOD_ELSE);
  }

  method BuildSubModels(fsm: Fsm<ModId>, cfg: Config, i: nat)
    requires fsm.Configured() && cfg.subModels < 0x8000_0000
    modifies fsm
    ensures fsm.Configured() && fsm.calls == old(fsm.calls) + Named(SubModelsCalls(i, cfg.subModels))
  {
    for j := 0 to cfg.subModels
      invariant fsm.Configured()
      invariant fsm.calls == old(fsm.calls) + Named(SubModelsCalls(i, j))
    {
      BuildSubModel(fsm, i, j);
      Extended(old(fsm.calls), SubModelsCalls(i, j), SubModelCalls(i, j));
    }
  }

  method BuildShard(fsm: Fsm<ModId>, cfg: Config, i: nat)
    requires fsm.Configured() && i < 0x8000_0000 && cfg.subModels < 0x8000_0000
    modifies fsm
    ensures fsm.Configured() && fsm.calls == old(fsm.calls) + Named(ShardCalls(cfg, i))
  {
    BuildShardHead(fsm, i);
    BuildSubModels(fsm, cfg, i);
    BuildShardTail(fsm, i);
    Extended(old(fsm.calls), ShardHead(i), SubModelsCalls(i, cfg.subModels));
    Extended(old(fsm.calls), ShardHead(i) + SubModelsCalls(i, cfg.subModels), ShardTail(i));
  }

  method BuildPs(fsm: Fsm<ModId>, i: nat)
    requires fsm.Configured() && i < 0x8000_0000
    modifies fsm
    ensures fsm.Configured() && fsm.calls == old(fsm.calls) + Named(PsCalls(i))
  {
    Appended7(fsm.calls, Named(PsCalls(i)));
    var psMod, psBackfillMod, psJoinMod := Mod(PsMod(i)), Mod(PsBackfillMod(i)), Mod(PsJoinMod);
    fsm.AddModule(psMod);
    fsm.LinkModule(Mod(PsForkMod), psMod, MOD_FORK0 + i);
    fsm.AddModule(psBackfillMod);
    fsm.LinkModule(psMod, psJoinMod, MOD_SUCCEED);
    fsm.LinkModule(psMod, psBackfillMod, MOD_ELSE);
    fsm.LinkModule(psBackfillMod, psJoinMod, MOD_SUCCEED);
    fsm.LinkModule(psBackfillMod, psJoinMod, MOD_ELSE);
  }

  method BuildRandom(fsm: Fsm<ModId>, cfg: Config)
    requires fsm.Configured()
    modifies fsm
    ensures fsm.Configured() && fsm.calls == old(fsm.calls) + Named(RandomCalls(cfg))
  {
    Appended5(fsm.calls, Named(RandomCalls(cfg)));
    var ifRandMod, respMod := Mod(IfRandMod), Mod(RespMod);
    fsm.AddModule(ifRandMod);
    fsm.LinkModule(Mod(FsJoinMod), ifRandMod, MOD_SUCCEED);
    fsm.LinkModule(Mod(PsJoinMod), ifRandMod, MOD_SUCCEED);
    fsm.AddModule(respMod);
    fsm.LinkModule(ifRandMod, respMod, cfg.notRand);
  }

  method BuildResponses(fsm: Fsm<ModId>, cfg: Config)
    requires fsm.Configured()
    modifies fsm
    ensures fsm.Configured() && fsm.calls == old(fsm.calls) + Named(ResponseCalls(cfg))
  {
    Appended6(fsm.calls, Named(ResponseCalls(cfg)));
    var randRespMod, emptyRespMod := Mod(RandRespMod), Mod(EmptyRespMod);
    fsm.AddModule(randRespMod);
    fsm.LinkModule(Mod(IfRandMod), randRespMod, cfg.rand);
    fsm.LinkModule(Mod(ReqMod), randRespMod, cfg.toRandom);
    fsm.AddModule(emptyRespMod);
    fsm.LinkModule(Mod(FsJoinMod), emptyRespMod, MOD_ELSE);
    fsm.LinkModule(Mod(PsJoinMod), emptyRespMod, MOD_ELSE);
  }

  method BuildEnd(fsm: Fsm<ModId>)
    requires fsm.Configured()
    modifies fsm
    ensures fsm.Configured() && fsm.calls == old(fsm.calls) + Named(EndCalls())
  {
    Appended7(fsm.calls, Named(EndCalls()));
    var endMod, emptyRespMod := Mod(EndMod), Mod(EmptyRespMod);
    fsm.AddModule(endMod);
    fsm.LinkModule(Mod(RespMod), endMod, MOD_SUCCEED);
    fsm.LinkModule(Mod(RespMod), endMod, MOD_ELSE);
    fsm.LinkModule(Mod(RandRespMod), endMod, MOD_SUCCEED);
    fsm.LinkModule(Mod(RandRespMod), endMod, MOD_ELSE);
    fsm.LinkModule(emptyRespMod, endMod, MOD_SUCCEED);
    fsm.LinkModule(emptyRespMod, endMod, MOD_ELSE);
  }

  method BuildFallbacks(fsm: Fsm<ModId>)
    requires fsm.Configured()
    modifies fsm
    ensures fsm.Configured() && fsm.calls == old(fsm.calls) + Named(FallbackCalls())
  {
    Appended3(fsm.calls, Named(FallbackCalls()));
    fsm.LinkModule(Mod(ReqMod), Mod(EndMod), MOD_ELSE);
    fsm.LinkModule(Mod(GenFsReqMod), Mod(EmptyRespMod), MOD_ELSE);
    fsm.LinkModule(Mod(GenPsReqMod), Mod(EmptyRespMod), MOD_ELSE);
  }

  method BuildHead(fsm: Fsm<ModId>, cfg: Config)
    requires fsm.Configured()
    modifies fsm
    ensures fsm.Configured() && fsm.calls == old(fsm.calls) + Named(HeadCalls(cfg))
  {
    Appended6(fsm.calls, Named(HeadCalls(cfg)));
    var reqMod, genFsReqMod, fsForkMod := Mod(ReqMod), Mod(GenFsReqMod), Mod(FsForkMod);
    fsm.AddModule(reqMod);
    fsm.AddModule(genFsReqMod);
    fsm.LinkModule(reqMod, genFsReqMod, cfg.toFs);
    fsm.AddModule(fsForkMod);
    fsm.LinkModule(genFsReqMod, fsForkMod, MOD_SUCCEED);
    fsm.AddModule(Mod(FsJoinMod));
  }

  method BuildMiddle(fsm: Fsm<ModId>, cfg: Config)
    requires fsm.Configured()
    modifies fsm
    ensures fsm.Configured() && fsm.calls == old(fsm.calls) + Named(MiddleCalls(cfg))
  {
    Appended5(fsm.calls, Named(MiddleCalls(cfg)));
    var genPsReqMod, psForkMod := Mod(GenPsReqMod), Mod(PsForkMod);
    fsm.AddModule(genPsReqMod);
    fsm.LinkModule(Mod(ReqMod), genPsReqMod, cfg.toPs);
    fsm.AddModule(psForkMod);
    fsm.LinkModule(genPsReqMod, psForkMod, MOD_SUCCEED);
    fsm.AddModule(Mod(PsJoinMod));
  }

  method BuildShards(fsm: Fsm<ModId>, cfg: Config)
    requires fsm.Configured() && Fits(cfg)
    modifies fsm
    ensures fsm.Configured() && fsm.calls == old(fsm.calls) + Named(ShardsCalls(cfg, cfg.fsShards))
  {
    for i := 0 to cfg.fsShards
      invariant fsm.Configured()
      invariant fsm.calls == old(fsm.calls) + Named(ShardsCalls(cfg, i))
    {
      BuildShard(fsm, cfg, i);
      Extended(old(fsm.calls), ShardsCalls(cfg, i), ShardCalls(cfg, i));
    }
  }

  method BuildAllPs(fsm: Fsm<ModId>, cfg: Config)
    requires fsm.Configured() && Fits(cfg)
    modifies fsm
    ensures fsm.Configured() && fsm.calls == old(fsm.calls) + Named(AllPsCalls(cfg.PsWidth()))
  {
    for i := 0 to cfg.PsWidth()
      invariant fsm.Configured()
      invariant fsm.calls == old(fsm.calls) + Named(AllPsCalls(i))
    {
      BuildPs(fsm, i);
      Extended(old(fsm.calls), AllPsCalls(i), PsCalls(i));
    }
  }

  method BuildExample(cfg: Config) returns (fsm: Fsm<ModId>)
    requires Fits(cfg)
    ensures fresh(fsm) && fsm.Configured() && fsm.calls == Named(ExampleCalls(cfg))
  {
    fsm := new Fsm<ModId>();
    BuildHead(fsm, cfg);
    BuildShards(fsm, cfg);
    BuildMiddle(fsm, cfg);
    BuildAllPs(fsm, cfg);
    BuildRandom(fsm, cfg);
    BuildResponses(fsm, cfg);
    BuildEnd(fsm);
    BuildFallbacks(fsm);
    NamedExample(cfg);
  }

  lemma NamedExample(cfg: Config)
    requires Fits(cfg)
    ensures Named(ExampleCalls(cfg)) ==
            [] + Named(HeadCalls(cfg)) + Named(ShardsCalls(cfg, cfg.fsShards)) + Named(MiddleCalls(cfg))
                + Named(AllPsCalls(cfg.PsWidth()))
            + Named(RandomCalls(cfg)) + Named(ResponseCalls(cfg)) + Named(EndCalls()) + Named(FallbackCalls())
  {
    var a, b, c, d := HeadCalls(cfg), ShardsCalls(cfg, cfg.fsShards), MiddleCalls(cfg), AllPsCalls(cfg.PsWidth());
    var e, f, g, h := RandomCalls(cfg), ResponseCalls(cfg), EndCalls(), FallbackCalls();
    NamedConcat(a + b + c + d + e + f + g, h);
    NamedConcat(a + b + c + d + e + f, g);
    NamedConcat(a + b + c + d + e, f);
    NamedConcat(a + b + c + d, e);
    NamedConcat(a + b + c, d);
    NamedConcat(a + b, c);
    NamedConcat(a, b);
    assert [] + Named(a) == Named(a);
  }
}
