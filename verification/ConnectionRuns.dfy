/**
 One connection as a whole: the chain of contexts (`ContextChain`) together with the reads and writes of its
 request and response modules (`ServerIo`).  What a module does to its socket is what the engine sees as the
 module's outcome.
 */
module ConnectionRuns {
  import opened ModStates
  import opened TokenEngine
  import opened TokenInvariant
  import opened TokenTheorems
  import opened ContextChain
  import ServerIo

  /** `owner[j]` is the context and the module that job `j` works for. */
  datatype Conn<!N> = Conn(chain: seq<Link<N>>, io: ServerIo.Connection, owner: seq<(nat, N)>)

  /** The request and response modules stand outside all branches. */
  ghost predicate IoModules<N(!new)>(g: Graph<N>, isIo: N -> bool) {
    forall n: N :: isIo(n) ==> g.kind(n).Simple? && g.region(n) == Top
  }

  ghost predicate PlanOk<N(!new)>(isIo: N -> bool, plan: Plan<N>) {
    WellNested(plan.g) && IoModules(plan.g, isIo)
  }

  datatype Step<!N> =
    | Engine(m: Move<N>)
    | Begin(m: Move<N>, job: ServerIo.Job)
    | NoReply(m: Move<N>)
    | Work(a: ServerIo.Action)
    | Finish(m: Move<N>, a: ServerIo.Action)

  /** The outcome of a finished job: how it resumed the engine, or that its continuation was lost. */
  function OutcomeOf(job: ServerIo.Job): Outcome {
    if job.resumed != [] then Resumes(job.resumed[0].state, job.resumed[0].exit) else Drops
  }

  /** The module whose call or handler a move makes is a request or response module. */
  predicate IsIoMove<N>(isIo: N -> bool, m: Move<N>) {
    (m.a.token.place.Run? || m.a.token.place.Pending?) && isIo(m.a.token.place.node)
  }

  ghost predicate IsDone(c: ServerIo.Connection, a: ServerIo.Action) {
    a.Done? && ServerIo.Enabled(c, a)
  }

  /** Nothing here asks that the socket be idle when a module starts on it. */
  ghost predicate CanStep<N>(isIo: N -> bool, c: Conn<N>, x: Step<N>) {
    match x
    case Engine(m) => CanMove(c.chain, m) && !IsIoMove(isIo, m)
    case Begin(m, job) =>
      && CanMove(c.chain, m) && IsIoMove(isIo, m) && m.a.token.place.Run? && m.a.async
      && (job == ServerIo.StartRead() || job == ServerIo.StartWrite(true))
    case NoReply(m) =>
      && CanMove(c.chain, m) && IsIoMove(isIo, m) && m.a.token.place.Run? && !m.a.async
      && c.chain[m.i].outcome(m.a.token.place.node) == Resumes(MOD_FAILED, false)
    case Work(a) =>
      && !a.Begin? && ServerIo.Enabled(c.io, a)
      && (a.Done? ==> ServerIo.Apply(c.io, a).jobs[a.i].op.Some?)
    case Finish(m, a) =>
      && CanMove(c.chain, m) && IsDone(c.io, a) && a.i < |c.owner|
      && m.a.token == Token(Top, Pending(c.owner[a.i].1)) && m.i == c.owner[a.i].0
      && ServerIo.Apply(c.io, a).jobs[a.i].op.None?
      && c.chain[m.i].outcome(c.owner[a.i].1) == OutcomeOf(ServerIo.Apply(c.io, a).jobs[a.i])
  }

  ghost function AfterStep<N>(isIo: N -> bool, c: Conn<N>, x: Step<N>): Conn<N>
    requires CanStep(isIo, c, x)
  {
    match x
    case Engine(m) => c.(chain := AfterMove(c.chain, m))
    case Begin(m, job) =>
      Conn(AfterMove(c.chain, m), ServerIo.Connection(c.io.jobs + [job]), c.owner + [(m.i, m.a.token.place.node)])
    case NoReply(m) =>
      Conn(AfterMove(c.chain, m), ServerIo.Connection(c.io.jobs + [ServerIo.StartWrite(false)]),
           c.owner + [(m.i, m.a.token.place.node)])
    case Work(a) => c.(io := ServerIo.Apply(c.io, a))
    case Finish(m, a) => c.(chain := AfterMove(c.chain, m), io := ServerIo.Apply(c.io, a))
  }

  ghost predicate Steps<N>(isIo: N -> bool, c: Conn<N>, xs: seq<Step<N>>)
    decreases |xs|
  {
    xs == [] || (CanStep(isIo, c, xs[0]) && Steps(isIo, AfterStep(isIo, c, xs[0]), xs[1..]))
  }

  ghost function AfterSteps<N>(isIo: N -> bool, c: Conn<N>, xs: seq<Step<N>>): Conn<N>
    requires Steps(isIo, c, xs)
    decreases |xs|
  {
    if xs == [] then c else AfterSteps(isIo, AfterStep(isIo, c, xs[0]), xs[1..])
  }

  /** A new connection, whose first request is going to be `plan`. */
  ghost function Accepted<N>(plan: Plan<N>): Conn<N> {
    Conn([Fresh(plan)], ServerIo.Connection([]), [])
  }

  /** Every request that may come is well nested, with its I/O outside the branches. */
  ghost predicate PlansOk<N(!new)>(isIo: N -> bool, xs: seq<Step<N>>) {
    forall x | x in xs && !x.Work? :: PlanOk(isIo, x.m.next)
  }

  // ---------------------------------------------------------------------------------------------
  // The invariant
  // ---------------------------------------------------------------------------------------------

  /** A job at work is what the engine waits for in its owner. */
  ghost predicate JobWaited<N>(isIo: N -> bool, c: Conn<N>, j: nat)
    requires j < |c.io.jobs| && |c.owner| == |c.io.jobs|
  {
    var (i, n) := c.owner[j];
    c.io.jobs[j].op.Some? ==> isIo(n) && i < |c.chain| && Token(Top, Pending(n)) in c.chain[i].state.tokens
  }

  /** A job resumed with the exit flag set. */
  predicate Exited(job: ServerIo.Job) {
    job.resumed != [] && job.resumed[0].exit
  }

  /** The newest context has the exit flag, or can never end because a continuation of it was lost. */
  ghost predicate IsLast<N(!new)>(chain: seq<Link<N>>)
    requires |chain| > 0
  {
    var newest := chain[|chain| - 1];
    newest.state.exit || (WellNested(newest.g) && Val(newest.g, newest.outcome, Top) == Lost)
  }

  /** A job failed: it resumed with the exit flag set, or its continuation was lost. */
  predicate Failed(job: ServerIo.Job) {
    Exited(job) || job.dropped > 0
  }

  ghost predicate AllIo<N(!new)>(isIo: N -> bool, chain: seq<Link<N>>) {
    forall k | 0 <= k < |chain| :: IoModules(chain[k].g, isIo)
  }

  ghost predicate Inv<N(!new)>(isIo: N -> bool, c: Conn<N>) {
    && ChainOk(c.chain) && AllIo(isIo, c.chain)
    && ServerIo.Inv(c.io) && |c.owner| == |c.io.jobs|
    && (forall j | 0 <= j < |c.io.jobs| :: JobWaited(isIo, c, j))
    && (forall j | 0 <= j < |c.io.jobs| && Failed(c.io.jobs[j]) :: IsLast(c.chain))
  }

  /** A thread that is about to run a module, or whose handler is about to be called, belongs to the newest context;
      if the module does I/O, it stands outside all branches. */
  lemma ActiveIsNewest<N(!new)>(isIo: N -> bool, chain: seq<Link<N>>, i: nat, t: Token<N>)
    requires ChainOk(chain) && i < |chain| && IoModules(chain[i].g, isIo) && t in chain[i].state.tokens
    requires (t.place.Run? || t.place.Pending?) && isIo(t.place.node)
    ensures i == |chain| - 1 && t.region == Top
  {
    assert i < |chain| - 1 ==> Spent(chain[i].g, t) by {
      if i < |chain| - 1 { OldLinksAreSpent(chain, i); }
    }
    var c := chain[i];
    assert LinkOk(c);
    var w := ReachedInv(c.g, c.outcome, c.acts, c.state);
    Located(c.g, c.state, w, t);
  }

  /** When a module starts on the socket, no operation is in flight on it. */
  lemma SocketIsIdle<N(!new)>(isIo: N -> bool, c: Conn<N>, i: nat, t: Token<N>)
    requires Inv(isIo, c)
    requires i < |c.chain| && t in c.chain[i].state.tokens && t.place.Run? && isIo(t.place.node)
    ensures ServerIo.Quiet(c.io)
  {
    ActiveIsNewest(isIo, c.chain, i, t);
    forall j | 0 <= j < |c.io.jobs| ensures c.io.jobs[j].op.None? {
      assert JobWaited(isIo, c, j);
      if c.io.jobs[j].op.Some? {
        var (k, n) := c.owner[j];
        var u := Token(Top, Pending(n));
        ActiveIsNewest(isIo, c.chain, k, u);
        assert LinkOk(c.chain[i]);
        OneTopToken(c.chain[i], t, u);
      }
    }
  }

  /** A move keeps the tokens that jobs at work are waited for by, unless it is the handler of that job. */
  lemma MoveKeepsWaits<N(!new)>(isIo: N -> bool, c: Conn<N>, m: Move<N>, j: nat, chain': seq<Link<N>>)
    requires CanMove(c.chain, m) && chain' == AfterMove(c.chain, m)
    requires j < |c.io.jobs| && |c.owner| == |c.io.jobs| && JobWaited(isIo, c, j)
    requires m.a.token != Token(Top, Pending(c.owner[j].1)) || m.i != c.owner[j].0
    ensures JobWaited(isIo, c.(chain := chain'), j)
  {
    var (i, n) := c.owner[j];
    if c.io.jobs[j].op.Some? && i == m.i {
      OtherTokensStay(c.chain[i].g, c.chain[i].outcome, c.chain[i].state, m.a, Token(Top, Pending(n)));
    }
  }

  /** A request whose meaning is lost never ends. */
  lemma LostNeverEnds<N(!new)>(c: Link<N>)
    requires LinkOk(c) && Val(c.g, c.outcome, Top) == Lost
    ensures c.state.ended == 0
  {
    var w := ReachedInv(c.g, c.outcome, c.acts, c.state);
    assert LocOk(c.g, Top, w[Top]) && LocVal(c.g, c.outcome, Top, w[Top]) == Val(c.g, c.outcome, Top);
  }

  /** A request module outside all branches that loses its continuation loses the request. */
  lemma DropLosesRequest<N(!new)>(c: Link<N>, n: N)
    requires LinkOk(c) && Token(Top, Pending(n)) in c.state.tokens && c.outcome(n).Drops?
    ensures Val(c.g, c.outcome, Top) == Lost
  {
    var w := ReachedInv(c.g, c.outcome, c.acts, c.state);
    Located(c.g, c.state, w, Token(Top, Pending(n)));
    assert LocVal(c.g, c.outcome, Top, w[Top]) == Val(c.g, c.outcome, Top);
  }

  /** A step of a connection whose newest request is lost creates no further context. */
  lemma LostStays<N(!new)>(chain: seq<Link<N>>, m: Move<N>, c': Link<N>)
    requires ChainOk(chain) && CanMove(chain, m) && c' == Advanced(chain[m.i], m.a)
    requires WellNested(chain[|chain| - 1].g)
    requires Val(chain[|chain| - 1].g, chain[|chain| - 1].outcome, Top) == Lost
    ensures !Restarts(chain[m.i], c')
  {
    assert LinkOk(chain[m.i]);
    LinkAdvances(chain[m.i], m.a, c');
    if m.i == |chain| - 1 {
      LostNeverEnds(c');
    } else {
      EndedStays(chain[m.i], m.a, c');
    }
  }

  lemma LastStays<N(!new)>(c: Conn<N>, m: Move<N>, chain': seq<Link<N>>)
    requires WellNested(m.next.g) && ChainOk(c.chain) && CanMove(c.chain, m) && chain' == AfterMove(c.chain, m)
    ensures ChainOk(chain')
    ensures IsLast(c.chain) ==> |chain'| == |c.chain| && IsLast(chain')
  {
    MoveKeepsChain(c.chain, m, chain');
    var newest := c.chain[|c.chain| - 1];
    if !newest.state.exit && IsLast(c.chain) {
      LostStays(c.chain, m, Advanced(c.chain[m.i], m.a));
      assert chain'[|c.chain| - 1].outcome == newest.outcome && chain'[|c.chain| - 1].g == newest.g;
    }
  }

  lemma MoveKeepsIo<N(!new)>(isIo: N -> bool, chain: seq<Link<N>>, m: Move<N>, chain': seq<Link<N>>)
    requires AllIo(isIo, chain) && CanMove(chain, m) && IoModules(m.next.g, isIo) && chain' == AfterMove(chain, m)
    ensures AllIo(isIo, chain') && |chain'| >= |chain|
  {
  }

  lemma EngineKeepsInv<N(!new)>(isIo: N -> bool, c: Conn<N>, m: Move<N>, c': Conn<N>)
    requires Inv(isIo, c) && PlanOk(isIo, m.next) && CanMove(c.chain, m) && !IsIoMove(isIo, m)
    requires c' == c.(chain := AfterMove(c.chain, m))
    ensures Inv(isIo, c')
  {
    LastStays(c, m, c'.chain);
    MoveKeepsIo(isIo, c.chain, m, c'.chain);
    forall j | 0 <= j < |c.io.jobs| ensures JobWaited(isIo, c', j) {
      assert JobWaited(isIo, c, j);
      if c.io.jobs[j].op.Some? {
        MoveKeepsWaits(isIo, c, m, j, c'.chain);
      }
    }
  }

  lemma StartKeepsInv<N(!new)>(isIo: N -> bool, c: Conn<N>, m: Move<N>, job: ServerIo.Job, c': Conn<N>)
    requires Inv(isIo, c)
    requires CanMove(c.chain, m) && IsIoMove(isIo, m) && m.a.token.place.Run? && PlanOk(isIo, m.next)
    requires if m.a.async then job == ServerIo.StartRead() || job == ServerIo.StartWrite(true)
        else job == ServerIo.StartWrite(false)
    requires c' == Conn(AfterMove(c.chain, m), ServerIo.Connection(c.io.jobs + [job]), c.owner
        + [(m.i, m.a.token.place.node)])
    ensures Inv(isIo, c')
  {
    var t := m.a.token;
    SocketIsIdle(isIo, c, m.i, t);
    ActiveIsNewest(isIo, c.chain, m.i, t);
    ServerIo.StepKeepsInv(c.io, ServerIo.Begin(job), c'.io);
    LastStays(c, m, c'.chain);
    MoveKeepsIo(isIo, c.chain, m, c'.chain);
    var last := |c.io.jobs|;
    if m.a.async {
      PendingAppears(c.chain[m.i].g, c.chain[m.i].outcome, c.chain[m.i].state, m.a);
    }
    assert JobWaited(isIo, c', last);
  }

  lemma WorkKeepsInv<N(!new)>(isIo: N -> bool, c: Conn<N>, a: ServerIo.Action, c': Conn<N>)
    requires Inv(isIo, c) && !a.Begin? && ServerIo.Enabled(c.io, a)
    requires a.Done? ==> ServerIo.Apply(c.io, a).jobs[a.i].op.Some?
    requires c' == c.(io := ServerIo.Apply(c.io, a))
    ensures Inv(isIo, c')
  {
    ServerIo.StepKeepsInv(c.io, a, c'.io);
    forall j | 0 <= j < |c.io.jobs|
      ensures JobWaited(isIo, c', j) && (Failed(c'.io.jobs[j]) ==> Failed(c.io.jobs[j]))
    {
      assert JobWaited(isIo, c, j) && ServerIo.JobOk(c'.io.jobs[j]);
    }
  }

  lemma FinishKeepsInv<N(!new)>(isIo: N -> bool, c: Conn<N>, x: Step<N>, c': Conn<N>)
    requires Inv(isIo, c)
    requires x.Finish? && PlanOk(isIo, x.m.next) && CanStep(isIo, c, x) && c' == AfterStep(isIo, c, x)
    ensures Inv(isIo, c')
  {
    var m, a, t := x.m, x.a, x.m.a.token;
    ServerIo.StepKeepsInv(c.io, a, c'.io);
    LastStays(c, m, c'.chain);
    MoveKeepsIo(isIo, c.chain, m, c'.chain);
    assert JobWaited(isIo, c, a.i);
    ActiveIsNewest(isIo, c.chain, m.i, t);
    HandlerSetsExit(c.chain[m.i].g, c.chain[m.i].outcome, c.chain[m.i].state, m.a);
    assert c'.chain == c.chain[m.i := Advanced(c.chain[m.i], m.a)];
    forall j | 0 <= j < |c.io.jobs| && j != a.i ensures c'.io.jobs[j] == c.io.jobs[j] && c.io.jobs[j].op.None? {
    }
    assert LinkOk(c.chain[m.i]);
    if c.chain[m.i].outcome(c.owner[a.i].1).Drops? {
      DropLosesRequest(c.chain[m.i], c.owner[a.i].1);
    }
    assert ServerIo.JobOk(c'.io.jobs[a.i]);
    assert Failed(c'.io.jobs[a.i]) ==> IsLast(c'.chain);
  }

  lemma StepKeepsInv<N(!new)>(isIo: N -> bool, c: Conn<N>, x: Step<N>, c': Conn<N>)
    requires Inv(isIo, c) && CanStep(isIo, c, x) && (!x.Work? ==> PlanOk(isIo, x.m.next))
        && c' == AfterStep(isIo, c, x)
    ensures Inv(isIo, c')
  {
    match x
    case Engine(m) => EngineKeepsInv(isIo, c, m, c');
    case Begin(m, job) => StartKeepsInv(isIo, c, m, job, c');
    case NoReply(m) => StartKeepsInv(isIo, c, m, ServerIo.StartWrite(false), c');
    case Work(a) => WorkKeepsInv(isIo, c, a, c');
    case Finish(_, _) => FinishKeepsInv(isIo, c, x, c');
  }

  lemma {:induction false} StepsKeepInv<N(!new)>(isIo: N -> bool, c: Conn<N>, xs: seq<Step<N>>)
    requires Inv(isIo, c) && Steps(isIo, c, xs) && PlansOk(isIo, xs)
    ensures Inv(isIo, AfterSteps(isIo, c, xs))
    decreases |xs|
  {
    if xs != [] {
      var c' := AfterStep(isIo, c, xs[0]);
      StepKeepsInv(isIo, c, xs[0], c');
      StepsKeepInv(isIo, c', xs[1..]);
    }
  }

  // ---------------------------------------------------------------------------------------------
  // Results
  // ---------------------------------------------------------------------------------------------

  /** The steps, in whatever order threads made them, lead from `c` to `c'`; all requests are as they should be. */
  ghost predicate LeadsTo<N(!new)>(isIo: N -> bool, c: Conn<N>, xs: seq<Step<N>>, c': Conn<N>) {
    forall i: int :: Unfolded(i) ==> Steps(isIo, c, xs) && c' == AfterSteps(isIo, c, xs) && PlansOk(isIo, xs)
  }

  lemma ReachableInv<N(!new)>(isIo: N -> bool, plan: Plan<N>, xs: seq<Step<N>>, c: Conn<N>)
    requires PlanOk(isIo, plan) && LeadsTo(isIo, Accepted(plan), xs, c)
    ensures Inv(isIo, c)
  {
    assert Unfolded(0);
    FreshOk(plan);
    StepsKeepInv(isIo, Accepted(plan), xs);
  }

  /** Whenever a request or response module starts on the connection's socket, no operation is in flight there,
      of this context or of an earlier one: what `ServerIo` takes for granted is so. */
  lemma ModulesFindTheSocketIdle<N(!new)>(isIo: N -> bool, plan: Plan<N>, xs: seq<Step<N>>,
      c: Conn<N>, x: Step<N>)
    requires PlanOk(isIo, plan) && LeadsTo(isIo, Accepted(plan), xs, c)
    requires CanStep(isIo, c, x) && x.Begin?
    ensures ServerIo.Enabled(c.io, ServerIo.Begin(x.job))
  {
    ReachableInv(isIo, plan, xs, c);
    SocketIsIdle(isIo, c, x.m.i, x.m.a.token);
  }

  lemma {:induction false} LastForGood<N(!new)>(isIo: N -> bool, c: Conn<N>, xs: seq<Step<N>>)
    requires Inv(isIo, c) && Steps(isIo, c, xs) && PlansOk(isIo, xs)
    requires IsLast(c.chain)
    ensures |AfterSteps(isIo, c, xs).chain| == |c.chain|
    decreases |xs|
  {
    if xs != [] {
      var c' := AfterStep(isIo, c, xs[0]);
      if !xs[0].Work? {
        LastStays(c, xs[0].m, c'.chain);
      }
      StepKeepsInv(isIo, c, xs[0], c');
      LastForGood(isIo, c', xs[1..]);
    }
  }

  /** Once a read or a write on a connection has failed or timed out, or its continuation was lost because the timer
      could not be cancelled, no further request starts on it, whatever happens from then on. */
  lemma FailedIoEndsTheConnection<N(!new)>(isIo: N -> bool, plan: Plan<N>,
      xs: seq<Step<N>>, c: Conn<N>, j: nat, more: seq<Step<N>>, c': Conn<N>)
    requires PlanOk(isIo, plan) && LeadsTo(isIo, Accepted(plan), xs, c)
    requires j < |c.io.jobs| && Failed(c.io.jobs[j])
    requires LeadsTo(isIo, c, more, c')
    ensures |c'.chain| == |c.chain|
  {
    ReachableInv(isIo, plan, xs, c);
    assert Unfolded(0);
    LastForGood(isIo, c, more);
  }
}
