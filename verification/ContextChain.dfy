/** The contexts of one connection: each serves one request, and the next one starts when it has ended. */
module ContextChain {
  import opened TokenEngine
  import opened TokenTheorems

  /** What a request is going to be: the graph with the branches it activates, and what its modules will do. */
  datatype Plan<!N> = Plan(g: Graph<N>, outcome: N -> Outcome)

  /** A context: its plan, the steps made so far, and the state they lead to. */
  datatype Link<!N> = Link(g: Graph<N>, outcome: N -> Outcome, acts: seq<Action<N>>, state: State<N>)

  /** The thread at `a.token` of context `i` makes a step; `next` is the plan of the context that `_end_request`
      creates, if it creates one. */
  datatype Move<!N> = Move(i: nat, a: Action<N>, next: Plan<N>)

  ghost function Fresh<N>(plan: Plan<N>): Link<N> {
    Link(plan.g, plan.outcome, [], TokenEngine.Init(plan.g))
  }

  ghost predicate CanMove<N>(chain: seq<Link<N>>, m: Move<N>) {
    m.i < |chain| && TokenEngine.Enabled(chain[m.i].g, chain[m.i].outcome, chain[m.i].state, m.a)
  }

  ghost function Advanced<N>(c: Link<N>, a: Action<N>): Link<N>
    requires TokenEngine.Enabled(c.g, c.outcome, c.state, a)
  {
    Link(c.g, c.outcome, c.acts + [a], TokenEngine.Apply(c.g, c.outcome, c.state, a))
  }

  /** `_end_request` has just been called without the exit flag. */
  ghost predicate Restarts<N>(c: Link<N>, c': Link<N>) {
    c'.state.ended > c.state.ended && !c'.state.exit
  }

  ghost function AfterMove<N>(chain: seq<Link<N>>, m: Move<N>): seq<Link<N>>
    requires CanMove(chain, m)
  {
    var c' := Advanced(chain[m.i], m.a);
    chain[m.i := c'] + if Restarts(chain[m.i], c') then [Fresh(m.next)] else []
  }

  ghost predicate Moves<N>(chain: seq<Link<N>>, moves: seq<Move<N>>)
    decreases |moves|
  {
    moves == [] || (CanMove(chain, moves[0]) && Moves(AfterMove(chain, moves[0]), moves[1..]))
  }

  ghost function AfterMoves<N>(chain: seq<Link<N>>, moves: seq<Move<N>>): seq<Link<N>>
    requires Moves(chain, moves)
    decreases |moves|
  {
    if moves == [] then chain else AfterMoves(AfterMove(chain, moves[0]), moves[1..])
  }

  // ---------------------------------------------------------------------------------------------
  // The invariant
  // ---------------------------------------------------------------------------------------------

  ghost predicate LinkOk<N(!new)>(c: Link<N>) {
    WellNested(c.g) && Reached(c.g, c.outcome, c.acts, c.state) && c.state.ended <= 1
  }

  ghost predicate ChainOk<N(!new)>(chain: seq<Link<N>>) {
    && |chain| > 0
    && (forall i | 0 <= i < |chain| :: LinkOk(chain[i]))
    && (forall i | 0 <= i < |chain| - 1 :: chain[i].state.ended == 1 && !chain[i].state.exit)
    && (var last := chain[|chain| - 1].state; last.ended == 1 ==> last.exit)
  }

  /** Every request that may come is well nested. */
  ghost predicate PlansOk<N(!new)>(moves: seq<Move<N>>) {
    forall m | m in moves :: WellNested(m.next.g)
  }

  lemma FreshOk<N(!new)>(plan: Plan<N>)
    requires WellNested(plan.g)
    ensures LinkOk(Fresh(plan)) && Fresh(plan).state.ended == 0
  {
  }

  /** A step of a context that has ended changes nothing about it that matters. */
  lemma EndedStays<N(!new)>(c: Link<N>, a: Action<N>, c': Link<N>)
    requires LinkOk(c) && c.state.ended == 1
    requires TokenEngine.Enabled(c.g, c.outcome, c.state, a) && c' == Advanced(c, a)
    ensures c'.state.ended == 1 && c'.state.exit == c.state.exit
  {
    NothingRunsAfterTheEnd(c.g, c.outcome, c.acts, c.state, a.token);
  }

  lemma LinkAdvances<N(!new)>(c: Link<N>, a: Action<N>, c': Link<N>)
    requires LinkOk(c)
    requires TokenEngine.Enabled(c.g, c.outcome, c.state, a) && c' == Advanced(c, a)
    ensures LinkOk(c')
    ensures c.state.ended <= c'.state.ended && (c.state.exit ==> c'.state.exit)
    ensures c.state.ended == 1 ==> c'.state.exit == c.state.exit
  {
    OneMoreStep(c.g, c.outcome, c.acts, c.state, a, c'.state);
    EndsAtMostOnce(c'.g, c'.outcome, c'.acts, c'.state);
    FlagsGrow(c.g, c.outcome, c.state, a);
    if c.state.ended == 1 {
      EndedStays(c, a, c');
    }
  }

  lemma FlagsGrow<N(!new)>(g: Graph<N>, o: N -> Outcome, s: State<N>, a: Action<N>)
    requires TokenEngine.Enabled(g, o, s, a)
    ensures var s' := TokenEngine.Apply(g, o, s, a); s.ended <= s'.ended && (s.exit ==> s'.exit)
  {
  }

  /** Replacing a link, and adding a fresh one if it has just ended without exit, keeps a chain. */
  lemma ReplaceKeepsChain<N(!new)>(chain: seq<Link<N>>, i: nat, c': Link<N>, newest: Link<N>, chain': seq<Link<N>>)
    requires ChainOk(chain) && i < |chain| && LinkOk(c') && LinkOk(newest) && newest.state.ended == 0
    requires chain[i].state.ended <= c'.state.ended && (chain[i].state.exit ==> c'.state.exit)
    requires chain[i].state.ended == 1 ==> c'.state.exit == chain[i].state.exit
    requires chain' == chain[i := c'] + if Restarts(chain[i], c') then [newest] else []
    ensures ChainOk(chain')
    ensures chain[|chain| - 1].state.exit ==> |chain'| == |chain| && chain'[|chain| - 1].state.exit
  {
  }

  lemma MoveKeepsChain<N(!new)>(chain: seq<Link<N>>, m: Move<N>, chain': seq<Link<N>>)
    requires ChainOk(chain) && CanMove(chain, m) && WellNested(m.next.g) && chain' == AfterMove(chain, m)
    ensures ChainOk(chain')
    ensures chain[|chain| - 1].state.exit ==> |chain'| == |chain| && chain'[|chain| - 1].state.exit
  {
    var c' := Advanced(chain[m.i], m.a);
    LinkAdvances(chain[m.i], m.a, c');
    FreshOk(m.next);
    ReplaceKeepsChain(chain, m.i, c', Fresh(m.next), chain');
  }

  /** A further context is created exactly by the step with which a request ends while its exit flag is not set: at its
      end module, never for want of a link.  It is a new one, for the request that comes next. */
  lemma RestartsExactly<N(!new)>(chain: seq<Link<N>>, m: Move<N>, chain': seq<Link<N>>)
    requires CanMove(chain, m) && chain' == AfterMove(chain, m)
    ensures var c, p := chain[m.i], m.a.token.place;
            if p.Leave? && p.node == c.g.end && !c.state.exit
            then |chain'| == |chain| + 1 && chain'[|chain|] == Fresh(m.next)
            else |chain'| == |chain|
  {
    var c := chain[m.i];
    FlagsAfter(c.g, c.outcome, c.state, m.a, Apply(c.g, c.outcome, c.state, m.a));
  }

  lemma {:induction false} MovesKeepChain<N(!new)>(chain: seq<Link<N>>, moves: seq<Move<N>>)
    requires ChainOk(chain) && Moves(chain, moves) && PlansOk(moves)
    ensures ChainOk(AfterMoves(chain, moves))
    decreases |moves|
  {
    if moves != [] {
      var chain' := AfterMove(chain, moves[0]);
      MoveKeepsChain(chain, moves[0], chain');
      MovesKeepChain(chain', moves[1..]);
    }
  }

  // ---------------------------------------------------------------------------------------------
  // Results
  // ---------------------------------------------------------------------------------------------

  /** The moves, in whatever order threads made them, lead from `chain` to `chain'`; every request is well nested. */
  ghost predicate Leads<N(!new)>(chain: seq<Link<N>>, moves: seq<Move<N>>, chain': seq<Link<N>>) {
    forall i: int :: Unfolded(i) ==> Moves(chain, moves) && chain' == AfterMoves(chain, moves) && PlansOk(moves)
  }

  lemma ChainFromStart<N(!new)>(plan: Plan<N>, moves: seq<Move<N>>, chain: seq<Link<N>>)
    requires WellNested(plan.g) && Leads([Fresh(plan)], moves, chain)
    ensures ChainOk(chain)
  {
    assert Unfolded(0);
    FreshOk(plan);
    MovesKeepChain([Fresh(plan)], moves);
  }

  /** Requests are serial: every context but the newest has ended, without exit, and nothing of it runs any more
      but threads on their way out of a join. */
  lemma RequestsAreSerial<N(!new)>(plan: Plan<N>, moves: seq<Move<N>>, chain: seq<Link<N>>, i: nat)
    requires WellNested(plan.g) && Leads([Fresh(plan)], moves, chain) && i < |chain| - 1
    ensures chain[i].state.ended == 1 && !chain[i].state.exit
    ensures forall t | t in chain[i].state.tokens :: Spent(chain[i].g, t)
  {
    ChainFromStart(plan, moves, chain);
    OldLinksAreSpent(chain, i);
  }

  lemma OldLinksAreSpent<N(!new)>(chain: seq<Link<N>>, i: nat)
    requires ChainOk(chain) && i < |chain| - 1
    ensures forall t | t in chain[i].state.tokens :: Spent(chain[i].g, t)
  {
    var c := chain[i];
    assert LinkOk(c);
    forall t | t in c.state.tokens ensures Spent(c.g, t) {
      NothingRunsAfterTheEnd(c.g, c.outcome, c.acts, c.state, t);
    }
  }

  lemma {:induction false} ExitStops<N(!new)>(chain: seq<Link<N>>, moves: seq<Move<N>>)
    requires ChainOk(chain) && chain[|chain| - 1].state.exit && Moves(chain, moves) && PlansOk(moves)
    ensures |AfterMoves(chain, moves)| == |chain|
    decreases |moves|
  {
    if moves != [] {
      var chain' := AfterMove(chain, moves[0]);
      MoveKeepsChain(chain, moves[0], chain');
      ExitStops(chain', moves[1..]);
    }
  }

  /** Once the newest context has the exit flag, no further request starts, whatever threads still do. */
  lemma NoRestartAfterExit<N(!new)>(plan: Plan<N>, moves: seq<Move<N>>, chain: seq<Link<N>>, more: seq<Move<N>>,
      chain': seq<Link<N>>)
    requires WellNested(plan.g) && Leads([Fresh(plan)], moves, chain) && Leads(chain, more, chain')
    requires chain != [] && chain[|chain| - 1].state.exit
    ensures |chain'| == |chain|
  {
    ChainFromStart(plan, moves, chain);
    assert Unfolded(0);
    ExitStops(chain, more);
  }

  /** A module outside all branches that has been started and has not answered yet. */
  predicate AtWork<N>(t: Token<N>) {
    t.region == Top && t.place.Pending?
  }

  /** Request and response modules stand outside all branches, so at most one of them, of all the contexts of a
      connection, has an operation on its socket. */
  lemma OneSocketOperation<N(!new)>(plan: Plan<N>, moves: seq<Move<N>>, chain: seq<Link<N>>, i: nat, t: Token<N>,
      k: nat, u: Token<N>)
    requires WellNested(plan.g) && Leads([Fresh(plan)], moves, chain)
    requires i < |chain| && t in chain[i].state.tokens && AtWork(t)
    requires k < |chain| && u in chain[k].state.tokens && AtWork(u)
    ensures i == k && t == u && chain[i].state.tokens[t] == 1
  {
    ChainFromStart(plan, moves, chain);
    OneAtWork(chain, i, t, k, u);
  }

  lemma OneAtWork<N(!new)>(chain: seq<Link<N>>, i: nat, t: Token<N>, k: nat, u: Token<N>)
    requires ChainOk(chain)
    requires i < |chain| && t in chain[i].state.tokens && AtWork(t)
    requires k < |chain| && u in chain[k].state.tokens && AtWork(u)
    ensures i == k == |chain| - 1 && t == u && chain[i].state.tokens[t] == 1
  {
    assert i < |chain| - 1 ==> Spent(chain[i].g, t) by {
      if i < |chain| - 1 { OldLinksAreSpent(chain, i); }
    }
    assert k < |chain| - 1 ==> Spent(chain[k].g, u) by {
      if k < |chain| - 1 { OldLinksAreSpent(chain, k); }
    }
    assert LinkOk(chain[i]);
    OneTopToken(chain[i], t, u);
  }

  lemma OneTopToken<N(!new)>(c: Link<N>, t: Token<N>, u: Token<N>)
    requires LinkOk(c) && t in c.state.tokens && u in c.state.tokens && t.region == u.region
    ensures t == u && c.state.tokens[t] == 1
  {
    var w := ReachedInv(c.g, c.outcome, c.acts, c.state);
    Located(c.g, c.state, w, t);
    Located(c.g, c.state, w, u);
  }
}
