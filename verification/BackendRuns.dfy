/**
 The backend modules of all contexts of a server, which share one client pool (`TcpRuns`), together with the engine
 that runs them (`TokenEngine`).  What a module's run resumes with is what the engine sees as its outcome.
 */
module BackendRuns {
  import opened ModStates
  import opened TokenEngine
  import opened TokenInvariant
  import opened TokenTheorems
  import opened ContextChain
  import TcpModule
  import TcpRuns
  import ClientPool

  /** The backend modules, and a numbering of their runs by context and module. */
  datatype Setup<!N> = Setup(isTcp: N -> bool, key: (nat, N) -> nat, lim: TcpRuns.Limits)

  ghost predicate SetupOk<N(!new)>(u: Setup<N>) {
    forall i: nat, n: N, k: nat, m: N :: u.key(i, n) == u.key(k, m) ==> i == k && n == m
  }

  /** A request is well nested, and its backend modules are neither forks nor joins. */
  ghost predicate GraphOk<N(!new)>(u: Setup<N>, g: Graph<N>) {
    WellNested(g) && forall n: N :: u.isTcp(n) ==> g.kind(n).Simple?
  }

  /** The contexts of all connections, oldest first, and the backend runs; `owner[r]` is the context and the module of
      run `r`. */
  datatype Server<!N> = Server(contexts: seq<Link<N>>, tcp: TcpRuns.Sys, owner: map<nat, (nat, N)>)

  datatype Step<!N> =
    | NewContext(plan: Plan<N>)
    | Engine(i: nat, a: Action<N>)
    | Start(i: nat, a: Action<N>, x: TcpRuns.Action)
    | Work(x: TcpRuns.Action)
    | Continue(i: nat, a: Action<N>, x: TcpRuns.Action)

  ghost predicate CanAdvance<N>(u: Setup<N>, s: Server<N>, i: nat, a: Action<N>) {
    i < |s.contexts| && TokenEngine.Enabled(s.contexts[i].g, s.contexts[i].outcome, s.contexts[i].state, a)
  }

  /** The module whose call or handler a step makes is a backend module. */
  predicate IsTcpStep<N>(u: Setup<N>, a: Action<N>) {
    (a.token.place.Run? || a.token.place.Pending?) && u.isTcp(a.token.place.node)
  }

  /** The run still owes the engine its continuation. */
  predicate Owed(run: TcpModule.Run) {
    run.op.Some? || run.window
  }

  function OutcomeOf(run: TcpModule.Run): Outcome {
    if run.resumed != [] then Resumes(run.resumed[0], false) else Drops
  }

  ghost function Started<N>(u: Setup<N>, s: Server<N>, x: TcpRuns.Action): TcpRuns.Sys
    requires ClientPool.Stocked(s.tcp.pool) && x.Start?
  {
    TcpRuns.ApplyStart(s.tcp, x, u.lim)
  }

  /** Nothing here asks that a module be started only once. */
  ghost predicate CanStep<N>(u: Setup<N>, s: Server<N>, step: Step<N>) {
    match step
    case NewContext(_) => true
    case Engine(i, a) => CanAdvance(u, s, i, a) && !IsTcpStep(u, a)
    case Start(i, a, x) =>
      && CanAdvance(u, s, i, a) && IsTcpStep(u, a) && a.token.place.Run?
      && x.Start? && ClientPool.Stocked(s.tcp.pool) && x.c !in s.tcp.pool.clients
      && x.r == u.key(i, a.token.place.node) && x.r in Started(u, s, x).runs
      && (a.async <==> Owed(Started(u, s, x).runs[x.r]))
      && (!a.async ==> s.contexts[i].outcome(a.token.place.node) == Resumes(MOD_FAILED, false))
    case Work(x) =>
      && !x.Start? && !x.Finish? && TcpRuns.Enabled(s.tcp, x)
      && (x.Socket? ==> Owed(TcpRuns.Apply(s.tcp, x, u.lim).runs[x.r]))
    case Continue(i, a, x) =>
      && CanAdvance(u, s, i, a) && (x.Socket? || x.Finish?) && TcpRuns.Enabled(s.tcp, x)
      && x.r in s.owner && s.owner[x.r].0 == i
      && a.token == Token(s.contexts[i].g.region(s.owner[x.r].1), Pending(s.owner[x.r].1))
      && x.r in TcpRuns.Apply(s.tcp, x, u.lim).runs
      && !Owed(TcpRuns.Apply(s.tcp, x, u.lim).runs[x.r])
      && s.contexts[i].outcome(s.owner[x.r].1) == OutcomeOf(TcpRuns.Apply(s.tcp, x, u.lim).runs[x.r])
  }

  ghost function Advance<N>(u: Setup<N>, s: Server<N>, i: nat, a: Action<N>): seq<Link<N>>
    requires CanAdvance(u, s, i, a)
  {
    s.contexts[i := Advanced(s.contexts[i], a)]
  }

  ghost function AfterStep<N>(u: Setup<N>, s: Server<N>, step: Step<N>): Server<N>
    requires CanStep(u, s, step)
  {
    match step
    case NewContext(plan) => s.(contexts := s.contexts + [Fresh(plan)])
    case Engine(i, a) => s.(contexts := Advance(u, s, i, a))
    case Start(i, a, x) => Server(Advance(u, s, i, a), Started(u, s, x), s.owner[x.r := (i, a.token.place.node)])
    case Work(x) => s.(tcp := TcpRuns.Apply(s.tcp, x, u.lim))
    case Continue(i, a, x) => s.(contexts := Advance(u, s, i, a), tcp := TcpRuns.Apply(s.tcp, x, u.lim))
  }

  ghost predicate PlansOk<N(!new)>(u: Setup<N>, steps: seq<Step<N>>) {
    forall step | step in steps && step.NewContext? :: GraphOk(u, step.plan.g)
  }

  ghost predicate Steps<N>(u: Setup<N>, s: Server<N>, steps: seq<Step<N>>)
    decreases |steps|
  {
    steps == [] || (CanStep(u, s, steps[0]) && Steps(u, AfterStep(u, s, steps[0]), steps[1..]))
  }

  ghost function AfterSteps<N>(u: Setup<N>, s: Server<N>, steps: seq<Step<N>>): Server<N>
    requires Steps(u, s, steps)
    decreases |steps|
  {
    if steps == [] then s else AfterSteps(u, AfterStep(u, s, steps[0]), steps[1..])
  }

  // ---------------------------------------------------------------------------------------------
  // The invariant
  // ---------------------------------------------------------------------------------------------

  ghost predicate OwnerOk<N>(u: Setup<N>, s: Server<N>, r: nat)
    requires r in s.owner
  {
    var (i, n) := s.owner[r];
    r == u.key(i, n) && i < |s.contexts| && u.isTcp(n) && n in s.contexts[i].state.runs
  }

  ghost predicate OwnersOk<N(!new)>(u: Setup<N>, s: Server<N>) {
    s.owner.Keys == s.tcp.runs.Keys && forall r | r in s.owner :: OwnerOk(u, s, r)
  }

  /** A run that owes its continuation is waited for by its module. */
  ghost predicate OwedIsAwaited<N>(u: Setup<N>, s: Server<N>, r: nat)
    requires r in s.owner && r in s.tcp.runs
  {
    var (i, n) := s.owner[r];
    Owed(s.tcp.runs[r]) ==>
      i < |s.contexts| && Token(s.contexts[i].g.region(n), Pending(n)) in s.contexts[i].state.tokens
  }

  /** How a run has answered. */
  predicate Answered(run: TcpModule.Run, st: ModState) {
    run.resumed == [st] || (run.failed == 1 && st == MOD_FAILED)
  }

  /** A backend module that waits is owed a continuation, and one that leaves goes with what its run has answered. */
  ghost predicate TokenBacked<N>(u: Setup<N>, s: Server<N>, i: nat, t: Token<N>) {
    var r := u.key(i, t.place.node);
    && (t.place.Pending? && u.isTcp(t.place.node) ==> r in s.tcp.runs && Owed(s.tcp.runs[r]))
    && (t.place.Leave? && u.isTcp(t.place.node) ==> r in s.tcp.runs && Answered(s.tcp.runs[r], t.place.state))
  }

  ghost predicate ContextOk<N(!new)>(u: Setup<N>, c: Link<N>) {
    LinkOk(c) && GraphOk(u, c.g)
  }

  ghost predicate ContextsOk<N(!new)>(u: Setup<N>, s: Server<N>) {
    forall i | 0 <= i < |s.contexts| :: ContextOk(u, s.contexts[i])
  }

  ghost predicate TokensBacked<N(!new)>(u: Setup<N>, s: Server<N>) {
    forall i: nat, t: Token<N> | i < |s.contexts| && t in s.contexts[i].state.tokens :: TokenBacked(u, s, i, t)
  }

  /** Contexts and runs belong together. */
  ghost predicate Linked<N(!new)>(u: Setup<N>, s: Server<N>) {
    && ContextsOk(u, s) && OwnersOk(u, s)
    && (forall r | r in s.owner :: r in s.tcp.runs && OwedIsAwaited(u, s, r))
    && TokensBacked(u, s)
  }

  ghost predicate Inv<N(!new)>(u: Setup<N>, s: Server<N>) {
    TcpRuns.Inv(s.tcp) && Linked(u, s)
  }

  // ---------------------------------------------------------------------------------------------
  // What the engine's steps do
  // ---------------------------------------------------------------------------------------------

  lemma RunsGrow<N(!new)>(g: Graph<N>, o: N -> Outcome, s: State<N>, a: Action<N>)
    requires TokenEngine.Enabled(g, o, s, a)
    ensures forall n | n in s.runs :: n in TokenEngine.Apply(g, o, s, a).runs
    ensures a.token.place.Run? ==> a.token.place.node in TokenEngine.Apply(g, o, s, a).runs
  {
  }

  /** A module that is about to run has not run in this context before. */
  lemma FirstRun<N(!new)>(u: Setup<N>, c: Link<N>, t: Token<N>)
    requires SetupOk(u) && ContextOk(u, c) && t in c.state.tokens && t.place.Run? && u.isTcp(t.place.node)
    ensures t.place.node !in c.state.runs && t.region == c.g.region(t.place.node)
  {
    var w := ReachedInv(c.g, c.outcome, c.acts, c.state);
    Located(c.g, c.state, w, t);
  }

  /** A waiting module has one token, in its own region. */
  lemma OneWaits<N(!new)>(u: Setup<N>, c: Link<N>, t: Token<N>)
    requires SetupOk(u) && ContextOk(u, c) && t in c.state.tokens && t.place.Pending?
    ensures c.state.tokens[t] == 1 && t.region == c.g.region(t.place.node)
  {
    var w := ReachedInv(c.g, c.outcome, c.acts, c.state);
    Located(c.g, c.state, w, t);
  }

  /** A token at which the engine waits for, or goes on from, a backend module. */
  predicate IsBackend<N>(u: Setup<N>, t: Token<N>) {
    (t.place.Pending? || t.place.Leave?) && u.isTcp(t.place.node)
  }

  /** How a step of context `c` looks to the backend modules: no token goes but the step's own, and at most the token
      `new` of such a module comes. */
  ghost predicate Framed<N(!new)>(u: Setup<N>, c: Link<N>, a: Action<N>, added: Option<Token<N>>, c': Link<N>) {
    && ContextOk(u, c') && c'.g == c.g
    && (forall n | n in c.state.runs :: n in c'.state.runs)
    && (forall t | t in c.state.tokens && t != a.token :: t in c'.state.tokens)
    && (forall t | t in c'.state.tokens && IsBackend(u, t) :: (t in c.state.tokens && t != a.token) || Some(t) == added)
  }

  lemma Gone<T>(before: multiset<T>, x: T, more: multiset<T>, after: multiset<T>, t: T)
    requires after == before - multiset{x} + more && t in after && before[x] == 1
    ensures t in more || (t in before && t != x)
  {
  }

  lemma OneOfEach<N(!new)>(u: Setup<N>, c: Link<N>, t: Token<N>)
    requires ContextOk(u, c) && t in c.state.tokens
    ensures c.state.tokens[t] == 1
  {
    var w := ReachedInv(c.g, c.outcome, c.acts, c.state);
  }

  /** Whatever backend tokens a step emits, it is framed by them. */
  lemma StepIsFramed<N(!new)>(u: Setup<N>, c: Link<N>, a: Action<N>, added: Option<Token<N>>, c': Link<N>)
    requires SetupOk(u) && ContextOk(u, c)
    requires TokenEngine.Enabled(c.g, c.outcome, c.state, a) && c' == Advanced(c, a)
    requires forall t | t in Emitted(c.g, c.outcome, c.state, a) && IsBackend(u, t) :: Some(t) == added
    ensures Framed(u, c, a, added, c')
  {
    LinkAdvances(c, a, c');
    RunsGrow(c.g, c.outcome, c.state, a);
    TokensAfter(c.g, c.outcome, c.state, a);
    OneOfEach(u, c, a.token);
    var more := Emitted(c.g, c.outcome, c.state, a);
    forall t | t in c'.state.tokens && IsBackend(u, t)
        ensures (t in c.state.tokens && t != a.token) || Some(t) == added {
      Gone(c.state.tokens, a.token, more, c'.state.tokens, t);
    }
    forall t | t in c.state.tokens && t != a.token ensures t in c'.state.tokens {
      InSum(c.state.tokens, a.token, more, c'.state.tokens, t);
    }
  }

  lemma TimersAreNotTcp<N(!new)>(u: Setup<N>, c: Link<N>, t: Token<N>)
    requires SetupOk(u) && ContextOk(u, c) && t in c.state.tokens
    ensures t.place.ForkTimer? ==> c.g.kind(t.place.node).Fork?
    ensures t.place.JoinTimer? ==> c.g.kind(t.place.node).Join?
  {
    var w := ReachedInv(c.g, c.outcome, c.acts, c.state);
    Located(c.g, c.state, w, t);
  }

  lemma EngineFrame<N(!new)>(u: Setup<N>, c: Link<N>, a: Action<N>, c': Link<N>)
    requires SetupOk(u) && ContextOk(u, c) && !IsTcpStep(u, a)
    requires TokenEngine.Enabled(c.g, c.outcome, c.state, a) && c' == Advanced(c, a)
    ensures Framed(u, c, a, None, c')
  {
    TimersAreNotTcp(u, c, a.token);
    StepIsFramed(u, c, a, None, c');
  }

  lemma StartFrame<N(!new)>(u: Setup<N>, c: Link<N>, a: Action<N>, t: Token<N>, c': Link<N>)
    requires SetupOk(u) && ContextOk(u, c) && IsTcpStep(u, a) && a.token.place.Run?
    requires TokenEngine.Enabled(c.g, c.outcome, c.state, a) && c' == Advanced(c, a)
    requires var n := a.token.place.node;
        t == Token(a.token.region, if a.async then Pending(n) else Leave(n, c.outcome(n).state))
    ensures Framed(u, c, a, Some(t), c')
    ensures a.token.place.node in c'.state.runs && t in c'.state.tokens
  {
    StepIsFramed(u, c, a, Some(t), c');
    RunsGrow(c.g, c.outcome, c.state, a);
    TokensAfter(c.g, c.outcome, c.state, a);
  }

  lemma ContinueFrame<N(!new)>(u: Setup<N>, c: Link<N>, a: Action<N>, added: Option<Token<N>>, c': Link<N>)
    requires SetupOk(u) && ContextOk(u, c) && IsTcpStep(u, a) && a.token.place.Pending?
    requires TokenEngine.Enabled(c.g, c.outcome, c.state, a) && c' == Advanced(c, a)
    requires var out := c.outcome(a.token.place.node);
             added == if out.Drops? then None else Some(Token(a.token.region, Leave(a.token.place.node, out.state)))
    ensures Framed(u, c, a, added, c')
  {
    StepIsFramed(u, c, a, added, c');
  }

  // ---------------------------------------------------------------------------------------------
  // What the runs' steps do
  // ---------------------------------------------------------------------------------------------

  /** As far as the engine is concerned, a run looks the same. */
  predicate Alike(run: TcpModule.Run, run': TcpModule.Run) {
    Owed(run) == Owed(run') && run.resumed == run'.resumed && run.failed == run'.failed
  }

  /** All runs but those in `changed` look the same. */
  ghost predicate OthersAlike(s: TcpRuns.Sys, s': TcpRuns.Sys, changed: set<nat>) {
    && s'.runs.Keys == s.runs.Keys + changed
    && forall r | r in s.runs && r !in changed :: Alike(s.runs[r], s'.runs[r])
  }

  lemma InterruptIsAlike(runs: map<nat, TcpModule.Run>, cs: set<ClientPool.ClientId>)
    ensures TcpRuns.Interrupt(runs, cs).Keys == runs.Keys
    ensures forall r | r in runs :: Alike(runs[r], TcpRuns.Interrupt(runs, cs)[r])
  {
  }

  lemma StartLeavesOthers(s: TcpRuns.Sys, x: TcpRuns.Action, lim: TcpRuns.Limits, s': TcpRuns.Sys)
    requires ClientPool.Stocked(s.pool) && x.Start? && s' == TcpRuns.ApplyStart(s, x, lim)
    ensures OthersAlike(s, s', {x.r})
    ensures s'.runs[x.r].resumed == [] && (Owed(s'.runs[x.r]) || s'.runs[x.r].failed == 1)
  {
    if x.peer != -1 {
      var (_, left) := ClientPool.Checkout(s.pool, x.peer, x.broken, lim.maxTimes);
      InterruptIsAlike(s.runs, TcpRuns.Closed(left) - TcpRuns.Closed(s.pool));
    }
  }

  lemma SocketLeavesOthers(s: TcpRuns.Sys, x: TcpRuns.Action, s': TcpRuns.Sys)
    requires TcpRuns.Enabled(s, x) && x.Socket? && s' == TcpRuns.ApplySocket(s, x)
    ensures OthersAlike(s, s', {x.r})
  {
    var runs := s.runs[x.r := TcpModule.OnSocket(s.runs[x.r], x.result, x.hookOk, x.cancelOk)];
    InterruptIsAlike(runs, TcpRuns.Closed(s'.pool) - TcpRuns.Closed(s.pool));
    assert s'.runs == TcpRuns.Interrupt(runs, TcpRuns.Closed(s'.pool) - TcpRuns.Closed(s.pool));
  }

  lemma TimerLeavesAll(s: TcpRuns.Sys, x: TcpRuns.Action, s': TcpRuns.Sys)
    requires TcpRuns.Enabled(s, x) && x.Timer? && s' == TcpRuns.ApplyTimer(s, x)
    ensures OthersAlike(s, s', {})
  {
    var run := s.runs[x.r];
    var runs := s.runs[x.r := TcpModule.OnTimer(run, x.kind, x.late)];
    assert Alike(run, runs[x.r]);
    if TcpModule.CancelsSocket(run, x.late) {
      InterruptIsAlike(runs, {run.client.value});
    }
  }

  /** The runs whose continuation a step can complete. */
  function Moved(x: TcpRuns.Action): set<nat> {
    if x.Socket? || x.Finish? then {x.r} else {}
  }

  lemma WorkLeavesOthers(s: TcpRuns.Sys, x: TcpRuns.Action, lim: TcpRuns.Limits, s': TcpRuns.Sys)
    requires TcpRuns.Enabled(s, x) && !x.Start? && s' == TcpRuns.Apply(s, x, lim)
    ensures OthersAlike(s, s', Moved(x)) && s'.runs.Keys == s.runs.Keys
  {
    match x
    case Socket(_, _, _, _, _) => SocketLeavesOthers(s, x, s');
    case Timer(_, _, _) => TimerLeavesAll(s, x, s');
    case Finish(_, _) =>
    case SweepPool(now, broken) =>
      InterruptIsAlike(s.runs, TcpRuns.Closed(s'.pool) - TcpRuns.Closed(s.pool));
  }

  /** A run that owes its continuation has not answered. */
  lemma OwedNotAnswered(s: TcpRuns.Sys, r: nat)
    requires TcpRuns.Inv(s) && r in s.runs && Owed(s.runs[r])
    ensures s.runs[r].resumed == [] && s.runs[r].failed == 0
  {
    assert TcpRuns.RunOk(s.runs[r]);
    assert |s.runs[r].resumed| == 0;
  }

  lemma AnswersOnce(s: TcpRuns.Sys, r: nat)
    requires TcpRuns.Inv(s) && r in s.runs && s.runs[r].resumed != []
    ensures s.runs[r].resumed == [s.runs[r].resumed[0]]
  {
    assert TcpRuns.RunOk(s.runs[r]);
  }

  // ---------------------------------------------------------------------------------------------
  // Both together
  // ---------------------------------------------------------------------------------------------

  /** The tokens of backend modules other than the step's own belong to runs that the step does not change. */
  ghost predicate OthersUntouched<N(!new)>(u: Setup<N>, s: Server<N>, i: nat, a: Action<N>, changed: set<nat>) {
    && (forall k: nat, t | k < |s.contexts| && t in s.contexts[k].state.tokens && IsBackend(u, t) ::
          u.key(k, t.place.node) in changed ==> k == i && t == a.token)
    && (forall r | r in s.owner && r !in changed && s.owner[r].0 == i ::
          i < |s.contexts| && a.token != Token(s.contexts[i].g.region(s.owner[r].1), Pending(s.owner[r].1)))
  }

  ghost predicate OwnersKept<N>(s: Server<N>, changed: set<nat>, s': Server<N>) {
    && s'.owner.Keys == s'.tcp.runs.Keys
    && (forall r | r in s.owner && r !in changed :: r in s'.owner && s'.owner[r] == s.owner[r])
  }

  /** A step of context `i` and of the runs in `changed` keeps them linked, if it does so for those runs and for the
      token that comes. */
  lemma JointStep<N(!new)>(u: Setup<N>, s: Server<N>, i: nat, a: Action<N>, added: Option<Token<N>>,
      changed: set<nat>, c': Link<N>, s': Server<N>)
    requires Linked(u, s) && i < |s.contexts|
    requires s'.contexts == s.contexts[i := c'] && Framed(u, s.contexts[i], a, added, c')
    requires OthersAlike(s.tcp, s'.tcp, changed) && OwnersKept(s, changed, s')
    requires forall r | r in changed :: r in s'.owner && OwnerOk(u, s', r) && OwedIsAwaited(u, s', r)
    requires OthersUntouched(u, s, i, a, changed) && (added.Some? ==> TokenBacked(u, s', i, added.value))
    ensures Linked(u, s')
  {
    forall r | r in s'.owner ensures OwnerOk(u, s', r) && OwedIsAwaited(u, s', r) {
      if r !in changed {
        assert r in s.owner && OwnerOk(u, s, r) && OwedIsAwaited(u, s, r);
      }
    }
    forall k: nat, t | k < |s'.contexts| && t in s'.contexts[k].state.tokens ensures TokenBacked(u, s', k, t) {
      if IsBackend(u, t) && !(k == i && Some(t) == added) {
        assert t in s.contexts[k].state.tokens && !(k == i && t == a.token);
        assert TokenBacked(u, s, k, t);
      }
    }
  }

  lemma EngineKeepsLinks<N(!new)>(u: Setup<N>, s: Server<N>, i: nat, a: Action<N>, c': Link<N>, s': Server<N>)
    requires Linked(u, s) && i < |s.contexts| && !IsTcpStep(u, a)
    requires Framed(u, s.contexts[i], a, None, c') && s' == s.(contexts := s.contexts[i := c'])
    ensures Linked(u, s')
  {
    assert forall r | r in s.owner :: OwnerOk(u, s, r);
    JointStep(u, s, i, a, None, {}, c', s');
  }

  lemma WorkKeepsInv<N(!new)>(u: Setup<N>, s: Server<N>, x: TcpRuns.Action, s': Server<N>)
    requires SetupOk(u) && Inv(u, s) && !x.Start? && !x.Finish? && TcpRuns.Enabled(s.tcp, x)
    requires s' == s.(tcp := TcpRuns.Apply(s.tcp, x, u.lim)) && (x.Socket? ==> Owed(s'.tcp.runs[x.r]))
    ensures Inv(u, s')
  {
    TcpRuns.StepKeepsInv(s.tcp, x, u.lim, s'.tcp);
    WorkLeavesOthers(s.tcp, x, u.lim, s'.tcp);
    if x.Socket? {
      OwedNotAnswered(s.tcp, x.r);
      OwedNotAnswered(s'.tcp, x.r);
      assert Alike(s.tcp.runs[x.r], s'.tcp.runs[x.r]);
    }
    AllAlikeKeepsInv(u, s, s');
  }

  lemma AllAlikeKeepsInv<N(!new)>(u: Setup<N>, s: Server<N>, s': Server<N>)
    requires Inv(u, s) && s' == s.(tcp := s'.tcp) && TcpRuns.Inv(s'.tcp) && s'.tcp.runs.Keys == s.tcp.runs.Keys
    requires forall r | r in s.tcp.runs :: Alike(s.tcp.runs[r], s'.tcp.runs[r])
    ensures Inv(u, s')
  {
    forall r | r in s'.owner ensures OwnerOk(u, s', r) && OwedIsAwaited(u, s', r) {
      assert OwnerOk(u, s, r) && OwedIsAwaited(u, s, r);
    }
    forall k: nat, t | k < |s'.contexts| && t in s'.contexts[k].state.tokens ensures TokenBacked(u, s', k, t) {
      assert TokenBacked(u, s, k, t);
    }
  }

  /** The run a module starts is new. */
  lemma StartIsNew<N(!new)>(u: Setup<N>, s: Server<N>, step: Step<N>)
    requires SetupOk(u) && Inv(u, s) && step.Start? && CanStep(u, s, step)
    ensures step.x.r !in s.tcp.runs && TcpRuns.Enabled(s.tcp, step.x)
  {
    assert ContextOk(u, s.contexts[step.i]);
    FirstRun(u, s.contexts[step.i], step.a.token);
    assert step.x.r in s.owner ==>
        OwnerOk(u, s, step.x.r) && s.owner[step.x.r] == (step.i, step.a.token.place.node);
  }

  lemma StartTouchesNone<N(!new)>(u: Setup<N>, s: Server<N>, i: nat, a: Action<N>, r: nat)
    requires Linked(u, s) && a.token.place.Run? && r !in s.tcp.runs
    ensures OthersUntouched(u, s, i, a, {r})
  {
    forall k: nat, t | k < |s.contexts| && t in s.contexts[k].state.tokens && IsBackend(u, t)
      ensures u.key(k, t.place.node) != r
    {
      assert TokenBacked(u, s, k, t);
    }
  }

  lemma StartJoint<N(!new)>(u: Setup<N>, s: Server<N>, i: nat, a: Action<N>, n: N, r: nat, t: Token<N>, c': Link<N>,
      s': Server<N>)
    requires Linked(u, s) && i < |s.contexts| && u.isTcp(n) && r == u.key(i, n) && r !in s.tcp.runs
        && a.token.place.Run?
    requires s'.contexts == s.contexts[i := c'] && Framed(u, s.contexts[i], a, Some(t), c')
    requires n in c'.state.runs && t in c'.state.tokens && t.region == c'.g.region(n)
    requires OthersAlike(s.tcp, s'.tcp, {r}) && s'.owner == s.owner[r := (i, n)]
    requires if Owed(s'.tcp.runs[r]) then t.place == Pending(n)
             else t.place.Leave? && t.place.node == n && Answered(s'.tcp.runs[r], t.place.state)
    ensures Linked(u, s')
  {
    assert OwnerOk(u, s', r) && OwedIsAwaited(u, s', r);
    StartTouchesNone(u, s, i, a, r);
    assert r !in s.owner;
    JointStep(u, s, i, a, Some(t), {r}, c', s');
  }

  lemma StartKeepsInv<N(!new)>(u: Setup<N>, s: Server<N>, step: Step<N>, s': Server<N>)
    requires SetupOk(u) && Inv(u, s) && step.Start? && CanStep(u, s, step) && s' == AfterStep(u, s, step)
    ensures Inv(u, s')
  {
    var Start(i, a, x) := step;
    var c, n := s.contexts[i], a.token.place.node;
    StartIsNew(u, s, step);
    TcpRuns.StepKeepsInv(s.tcp, x, u.lim, s'.tcp);
    StartLeavesOthers(s.tcp, x, u.lim, s'.tcp);
    assert ContextOk(u, c);
    FirstRun(u, c, a.token);
    var t := Token(a.token.region, if a.async then Pending(n) else Leave(n, c.outcome(n).state));
    StartFrame(u, c, a, t, s'.contexts[i]);
    StartJoint(u, s, i, a, n, x.r, t, s'.contexts[i], s');
  }

  /** A run that is owed, and has not answered. */
  predicate Silent(s: TcpRuns.Sys, r: nat) {
    r in s.runs && Owed(s.runs[r]) && s.runs[r].resumed == [] && s.runs[r].failed == 0
  }

  /** The other tokens of backend modules do not belong to a run that owes its continuation. */
  lemma OtherTokensOtherRuns<N(!new)>(u: Setup<N>, s: Server<N>, i: nat, n: N, k: nat, t: Token<N>)
    requires SetupOk(u) && ContextsOk(u, s) && TokensBacked(u, s) && Silent(s.tcp, u.key(i, n)) && i < |s.contexts|
    requires k < |s.contexts| && t in s.contexts[k].state.tokens && IsBackend(u, t)
    requires u.key(k, t.place.node) == u.key(i, n)
    ensures k == i && t == Token(s.contexts[i].g.region(n), Pending(n))
  {
    assert TokenBacked(u, s, k, t);
    assert k == i && t.place.node == n;
    assert ContextOk(u, s.contexts[k]);
    OneWaits(u, s.contexts[k], t);
  }

  lemma OtherOwnersOtherTokens<N(!new)>(u: Setup<N>, s: Server<N>, i: nat, n: N, r: nat)
    requires OwnersOk(u, s) && r in s.owner && s.owner[r] == (i, n)
    ensures forall q | q in s.owner && q != r && s.owner[q].0 == i :: s.owner[q].1 != n
  {
    assert OwnerOk(u, s, r);
    forall q | q in s.owner && q != r && s.owner[q].0 == i ensures s.owner[q].1 != n {
      assert OwnerOk(u, s, q);
    }
  }

  lemma OnlyItsToken<N(!new)>(u: Setup<N>, s: Server<N>, i: nat, n: N, r: nat)
    requires SetupOk(u) && ContextsOk(u, s) && TokensBacked(u, s) && Silent(s.tcp, r) && r == u.key(i, n)
    requires i < |s.contexts|
    ensures forall k: nat, t |
              k < |s.contexts| && t in s.contexts[k].state.tokens && IsBackend(u, t) && u.key(k, t.place.node) == r ::
              k == i && t == Token(s.contexts[i].g.region(n), Pending(n))
  {
    forall k: nat, t |
      k < |s.contexts| && t in s.contexts[k].state.tokens && IsBackend(u, t) && u.key(k, t.place.node) == r
      ensures k == i && t == Token(s.contexts[i].g.region(n), Pending(n))
    {
      OtherTokensOtherRuns(u, s, i, n, k, t);
    }
  }

  lemma ContinueTouchesNone<N(!new)>(u: Setup<N>, s: Server<N>, i: nat, a: Action<N>, n: N, r: nat)
    requires SetupOk(u) && Linked(u, s) && i < |s.contexts| && a.token == Token(s.contexts[i].g.region(n), Pending(n))
    requires r in s.owner && s.owner[r] == (i, n) && Silent(s.tcp, r)
    ensures OthersUntouched(u, s, i, a, {r})
  {
    assert OwnerOk(u, s, r);
    OnlyItsToken(u, s, i, n, r);
    OtherOwnersOtherTokens(u, s, i, n, r);
    TouchesNone(u, s, i, a, n, r);
  }

  lemma TouchesNone<N(!new)>(u: Setup<N>, s: Server<N>, i: nat, a: Action<N>, n: N, r: nat)
    requires i < |s.contexts| && a.token == Token(s.contexts[i].g.region(n), Pending(n))
    requires forall k: nat, t |
               k < |s.contexts| && t in s.contexts[k].state.tokens && IsBackend(u, t) && u.key(k, t.place.node) == r ::
               k == i && t == a.token
    requires forall q | q in s.owner && q != r && s.owner[q].0 == i :: s.owner[q].1 != n
    ensures OthersUntouched(u, s, i, a, {r})
  {
  }

  lemma ContinueJoint<N(!new)>(u: Setup<N>, s: Server<N>, i: nat, a: Action<N>, n: N, r: nat, added: Option<Token<N>>,
      c': Link<N>, s': Server<N>)
    requires Linked(u, s) && i < |s.contexts| && OthersUntouched(u, s, i, a, {r}) && r in s.owner
        && s.owner[r] == (i, n)
    requires s'.contexts == s.contexts[i := c'] && Framed(u, s.contexts[i], a, added, c')
    requires OthersAlike(s.tcp, s'.tcp, {r}) && s'.owner == s.owner && !Owed(s'.tcp.runs[r])
    requires added.Some? ==> var t := added.value;
               t.place.Leave? && t.place.node == n && Answered(s'.tcp.runs[r], t.place.state)
    ensures Linked(u, s')
  {
    assert OwnerOk(u, s, r) && OwnerOk(u, s', r) && OwedIsAwaited(u, s', r);
    JointStep(u, s, i, a, added, {r}, c', s');
  }

  lemma ContinueKeepsInv<N(!new)>(u: Setup<N>, s: Server<N>, step: Step<N>, s': Server<N>)
    requires SetupOk(u) && Inv(u, s) && step.Continue? && CanStep(u, s, step) && s' == AfterStep(u, s, step)
    ensures Inv(u, s')
  {
    var Continue(i, a, x) := step;
    var c, n := s.contexts[i], a.token.place.node;
    TcpRuns.StepKeepsInv(s.tcp, x, u.lim, s'.tcp);
    WorkLeavesOthers(s.tcp, x, u.lim, s'.tcp);
    assert ContextOk(u, c) && OwnerOk(u, s, x.r);
    var out := c.outcome(n);
    var added := if out.Drops? then None else Some(Token(a.token.region, Leave(n, out.state)));
    ContinueFrame(u, c, a, added, s'.contexts[i]);
    if s'.tcp.runs[x.r].resumed != [] {
      AnswersOnce(s'.tcp, x.r);
    }
    OwedNotAnswered(s.tcp, x.r);
    ContinueTouchesNone(u, s, i, a, n, x.r);
    ContinueJoint(u, s, i, a, n, x.r, added, s'.contexts[i], s');
  }

  lemma NewContextKeepsInv<N(!new)>(u: Setup<N>, s: Server<N>, plan: Plan<N>, s': Server<N>)
    requires SetupOk(u) && Inv(u, s) && GraphOk(u, plan.g) && s' == s.(contexts := s.contexts + [Fresh(plan)])
    ensures Inv(u, s')
  {
    FreshOk(plan);
    forall r | r in s'.owner ensures OwnerOk(u, s', r) && OwedIsAwaited(u, s', r) {
      assert OwnerOk(u, s, r) && OwedIsAwaited(u, s, r);
    }
    forall k: nat, t | k < |s'.contexts| && t in s'.contexts[k].state.tokens ensures TokenBacked(u, s', k, t) {
      if k < |s.contexts| {
        assert TokenBacked(u, s, k, t);
      }
    }
  }

  lemma StepKeepsInv<N(!new)>(u: Setup<N>, s: Server<N>, step: Step<N>, s': Server<N>)
    requires SetupOk(u) && Inv(u, s) && CanStep(u, s, step) && s' == AfterStep(u, s, step)
    requires step.NewContext? ==> GraphOk(u, step.plan.g)
    ensures Inv(u, s')
  {
    match step
    case NewContext(plan) => NewContextKeepsInv(u, s, plan, s');
    case Engine(i, a) =>
      assert ContextOk(u, s.contexts[i]);
      EngineFrame(u, s.contexts[i], a, s'.contexts[i]);
      EngineKeepsLinks(u, s, i, a, s'.contexts[i], s');
    case Start(_, _, _) => StartKeepsInv(u, s, step, s');
    case Work(x) => WorkKeepsInv(u, s, x, s');
    case Continue(_, _, _) => ContinueKeepsInv(u, s, step, s');
  }

  lemma {:induction false} StepsKeepInv<N(!new)>(u: Setup<N>, s: Server<N>, steps: seq<Step<N>>)
    requires SetupOk(u) && Inv(u, s) && Steps(u, s, steps) && PlansOk(u, steps)
    ensures Inv(u, AfterSteps(u, s, steps))
    decreases |steps|
  {
    if steps != [] {
      var s' := AfterStep(u, s, steps[0]);
      StepKeepsInv(u, s, steps[0], s');
      StepsKeepInv(u, s', steps[1..]);
    }
  }

  // ---------------------------------------------------------------------------------------------
  // Results
  // ---------------------------------------------------------------------------------------------

  ghost function NewServer<N>(): Server<N> {
    Server([], TcpRuns.INIT, map[])
  }

  /** The steps, in whatever order threads made them, lead a new server to `s`; all requests are as they should be. */
  ghost predicate Served<N(!new)>(u: Setup<N>, steps: seq<Step<N>>, s: Server<N>) {
    forall i: int :: Unfolded(i) ==>
      Steps(u, NewServer(), steps) && s == AfterSteps(u, NewServer(), steps) && PlansOk(u, steps)
  }

  lemma ServedInv<N(!new)>(u: Setup<N>, steps: seq<Step<N>>, s: Server<N>)
    requires SetupOk(u) && Served(u, steps, s)
    ensures Inv(u, s)
  {
    assert Unfolded(0);
    StepsKeepInv(u, NewServer(), steps);
  }

  /** A backend module is started at most once per context: what `TcpRuns` takes for granted is so. */
  lemma ModulesStartOnce<N(!new)>(u: Setup<N>, steps: seq<Step<N>>, s: Server<N>, step: Step<N>)
    requires SetupOk(u) && Served(u, steps, s) && step.Start? && CanStep(u, s, step)
    ensures TcpRuns.Enabled(s.tcp, step.x)
  {
    ServedInv(u, steps, s);
    StartIsNew(u, s, step);
  }

  /** A backend module waits for its handler exactly as long as its run owes a continuation: it has one operation in
      flight, or is about to resume. */
  lemma WaitingMeansOwed<N(!new)>(u: Setup<N>, steps: seq<Step<N>>, s: Server<N>, i: nat, n: N)
    requires SetupOk(u) && Served(u, steps, s) && i < |s.contexts| && u.isTcp(n)
    ensures Token(s.contexts[i].g.region(n), Pending(n)) in s.contexts[i].state.tokens
            <==> u.key(i, n) in s.tcp.runs && Owed(s.tcp.runs[u.key(i, n)])
  {
    ServedInv(u, steps, s);
    var t := Token(s.contexts[i].g.region(n), Pending(n));
    assert t in s.contexts[i].state.tokens ==> TokenBacked(u, s, i, t);
    var r := u.key(i, n);
    if r in s.tcp.runs {
      assert r in s.owner && OwnerOk(u, s, r) && OwedIsAwaited(u, s, r);
      var (k, m) := s.owner[r];
      assert k == i && m == n;
    }
  }

  /** The engine goes on from a backend module with the state its run has resumed with, or with a failure if the run
      failed at once: after a success the client is back in the pool's hands, after a timeout the run's own timer has
      fired. */
  lemma EngineSeesTheRun<N(!new)>(u: Setup<N>, steps: seq<Step<N>>, s: Server<N>, i: nat, t: Token<N>)
    requires SetupOk(u) && Served(u, steps, s)
    requires i < |s.contexts| && t in s.contexts[i].state.tokens && t.place.Leave? && u.isTcp(t.place.node)
    ensures var r := u.key(i, t.place.node);
            && r in s.tcp.runs && Answered(s.tcp.runs[r], t.place.state)
            && (t.place.state == MOD_SUCCEED ==> s.tcp.runs[r].client.None?)
            && (t.place.state == MOD_TIMEOUT ==> s.tcp.runs[r].fired)
  {
    ServedInv(u, steps, s);
    assert TokenBacked(u, s, i, t);
    assert TcpRuns.RunOk(s.tcp.runs[u.key(i, t.place.node)]);
  }

  /** No two backend modules, of whatever contexts, do I/O on the same client, and none does on one in the pool. */
  lemma OneModulePerClient<N(!new)>(u: Setup<N>, steps: seq<Step<N>>, s: Server<N>, r: nat, q: nat)
    requires SetupOk(u) && Served(u, steps, s)
    requires r in s.owner && q in s.owner && r in s.tcp.runs && q in s.tcp.runs
    requires s.tcp.runs[r].op.Some? && s.tcp.runs[q].op.Some?
    requires s.tcp.runs[r].op.value.client == s.tcp.runs[q].op.value.client
    ensures s.owner[r] == s.owner[q] && s.tcp.runs[r].op.value.client !in ClientPool.PooledIds(s.tcp.pool)
  {
    ServedInv(u, steps, s);
    assert TcpRuns.RunOk(s.tcp.runs[r]) && TcpRuns.Holds(s.tcp.runs[r], s.tcp.runs[r].op.value.client);
    assert TcpRuns.RunOk(s.tcp.runs[q]) && TcpRuns.Holds(s.tcp.runs[q], s.tcp.runs[q].op.value.client);
  }
}
