/**
 The engine as the source writes it: `_run`, `resume`, `_end_request` and `handle_request` call each other
 recursively and change the context in place.  Each call terminates, and what it does to a context is a
 sequence of steps of the token protocol, so that the results of `TokenTheorems` hold of it.
 */
module FsmRun {
  import opened ModStates
  import opened TokenEngine
  import opened TokenInvariant
  import opened TokenTheorems

  /** What one request is going to be: the graph with the branches it activates, what its modules do, and who of them
      answers at once. */
  datatype Behaviour<!N> = Behaviour(g: Graph<N>, outcome: N -> Outcome, atOnce: N -> bool)

  /** The start module is a request module, which always answers later. */
  ghost predicate Plausible<N(!new)>(b: Behaviour<N>) {
    !b.atOnce(b.g.start) && forall n: N :: b.atOnce(n) ==> b.outcome(n).Resumes?
  }

  /** The requests of a connection, one after the other. */
  ghost predicate Sound<N(!new)>(next: nat -> Behaviour<N>) {
    forall i: nat :: WellNested(next(i).g) && Plausible(next(i))
  }

  // ---------------------------------------------------------------------------------------------
  // Steps of the token protocol, on values
  // ---------------------------------------------------------------------------------------------

  /** A thread that can still do something finds the request not ended. */
  lemma NotYetEnded<N(!new)>(g: Graph<N>, o: N -> Outcome, acts: seq<Action<N>>, s: State<N>, t: Token<N>)
    requires Reached(g, o, acts, s) && t in s.tokens && !t.place.Counted?
    ensures s.ended == 0
  {
    EndsAtMostOnce(g, o, acts, s);
    if s.ended == 1 {
      NothingRunsAfterTheEnd(g, o, acts, s, t);
    }
  }

  /** Following a link goes down the graph. */
  lemma RankDrops<N(!new)>(g: Graph<N>, o: N -> Outcome, acts: seq<Action<N>>, s: State<N>, t: Token<N>)
    requires Reached(g, o, acts, s) && t in s.tokens && t.place.Leave? && t.place.node != g.end
    requires g.next(t.place.node, t.place.state).Some?
    ensures g.rank(g.next(t.place.node, t.place.state).value) < g.rank(t.place.node)
  {
    var w := ReachedInv(g, o, acts, s);
    Located(g, s, w, t);
    LinkDrops(g, t.region, t.place.node, t.place.state);
  }

  lemma LinkDrops<N(!new)>(g: Graph<N>, r: Region<N>, n: N, st: ModState)
    requires WellNested(g) && PlaceOk(g, r, Leave(n, st)) && n != g.end && g.next(n, st).Some?
    ensures g.rank(g.next(n, st).value) < g.rank(n)
  {
    assert NodeOk(g, n);
    assert LeadsOn(g, n, st, r);
  }

  /** The timers of the first `k` branches of a fork. */
  ghost function ForkTimers<N>(f: N, k: nat): multiset<Token<N>> {
    if k == 0 then multiset{} else ForkTimers(f, k - 1) + multiset{Token(Region.Branch(f, k - 1), ForkTimer(f))}
  }

  /** The fields of a context agree with the state `acts` leads to; `running` is the thread inside the engine. */
  ghost predicate Matches<N(!new)>(g: Graph<N>, o: N -> Outcome, acts: seq<Action<N>>, s: State<N>,
      exit: bool, joined: map<N, nat>, failed: set<N>, callbacks: multiset<Token<N>>, running: multiset<Token<N>>)
  {
    && Reached(g, o, acts, s)
    && s.tokens == callbacks + running && s.exit == exit && s.joined == joined && s.failed == failed
  }

  lemma AnswerNow<N(!new)>(g: Graph<N>, o: N -> Outcome, acts: seq<Action<N>>, s: State<N>,
      exit: bool, joined: map<N, nat>, failed: set<N>, callbacks: multiset<Token<N>>,
      r: Region<N>, n: N, last: ModState) returns (s': State<N>)
    requires Matches(g, o, acts, s, exit, joined, failed, callbacks, multiset{Token(r, Run(n, last))})
    requires g.kind(n).Simple? && o(n).Resumes?
    ensures s'.ended == s.ended
    ensures Matches(g, o, acts + [Action(Token(r, Run(n, last)), false)], s', exit || o(n).exits, joined, failed,
                    callbacks, multiset{Token(r, Leave(n, o(n).state))})
  {
    var t := Token(r, Run(n, last));
    EveryTokenCanStep(g, o, acts, s, t);
    s' := Apply(g, o, s, Action(t, false));
    OneMoreStep(g, o, acts, s, Action(t, false), s');
    assert s.tokens - multiset{t} == callbacks;
  }

  lemma AnswerLater<N(!new)>(g: Graph<N>, o: N -> Outcome, acts: seq<Action<N>>, s: State<N>,
      exit: bool, joined: map<N, nat>, failed: set<N>, callbacks: multiset<Token<N>>,
      r: Region<N>, n: N, last: ModState) returns (s': State<N>)
    requires Matches(g, o, acts, s, exit, joined, failed, callbacks, multiset{Token(r, Run(n, last))})
        && g.kind(n).Simple?
    ensures s'.ended == s.ended
    ensures Matches(g, o, acts + [Action(Token(r, Run(n, last)), true)], s', exit, joined, failed,
                    callbacks + multiset{Token(r, Pending(n))}, multiset{})
  {
    var t := Token(r, Run(n, last));
    EveryTokenCanStep(g, o, acts, s, t);
    s' := Apply(g, o, s, Action(t, true));
    OneMoreStep(g, o, acts, s, Action(t, true), s');
    assert s.tokens - multiset{t} == callbacks;
  }

  lemma SplitStep<N(!new)>(g: Graph<N>, o: N -> Outcome, acts: seq<Action<N>>, s: State<N>,
      exit: bool, joined: map<N, nat>, failed: set<N>, callbacks: multiset<Token<N>>,
      r: Region<N>, f: N, last: ModState) returns (s': State<N>)
    requires Matches(g, o, acts, s, exit, joined, failed, callbacks, multiset{Token(r, Run(f, last))})
        && g.kind(f).Fork?
    ensures s'.ended == s.ended
    ensures Matches(g, o, acts + [Action(Token(r, Run(f, last)), true)], s', exit, joined, failed,
                    callbacks, ArmingToken(f, 0, g.kind(f).active))
  {
    var t := Token(r, Run(f, last));
    EveryTokenCanStep(g, o, acts, s, t);
    s' := Apply(g, o, s, Action(t, true));
    OneMoreStep(g, o, acts, s, Action(t, true), s');
    assert s.tokens - multiset{t} == callbacks;
  }

  lemma ArmTimerStep<N(!new)>(g: Graph<N>, o: N -> Outcome, acts: seq<Action<N>>, s: State<N>,
      exit: bool, joined: map<N, nat>, failed: set<N>, callbacks: multiset<Token<N>>,
      f: N, k: nat) returns (s': State<N>)
    requires g.kind(f).Fork?
        && Matches(g, o, acts, s, exit, joined, failed, callbacks, multiset{Token(Region.Branch(f, k), Arming(f))})
    ensures s'.ended == s.ended
    ensures Matches(g, o, acts + [Action(Token(Region.Branch(f, k), Arming(f)), true)], s', exit, joined, failed,
                    callbacks + multiset{Token(Region.Branch(f, k), ForkTimer(f))},
                    ArmingToken(f, k + 1, g.kind(f).active))
  {
    var t := Token(Region.Branch(f, k), Arming(f));
    EveryTokenCanStep(g, o, acts, s, t);
    s' := Apply(g, o, s, Action(t, true));
    OneMoreStep(g, o, acts, s, Action(t, true), s');
    assert s.tokens - multiset{t} == callbacks;
  }

  lemma CountStep<N(!new)>(g: Graph<N>, o: N -> Outcome, acts: seq<Action<N>>, s: State<N>,
      exit: bool, joined: map<N, nat>, failed: set<N>, callbacks: multiset<Token<N>>,
      r: Region<N>, j: N, last: ModState, count: nat) returns (s': State<N>)
    requires Matches(g, o, acts, s, exit, joined, failed, callbacks, multiset{Token(r, Run(j, last))})
        && g.kind(j).Join?
    requires count == Increment16(if j in joined then joined[j] else 0)
    ensures s'.ended == s.ended
    ensures Matches(g, o, acts + [Action(Token(r, Run(j, last)), true)], s', exit, joined[j := count],
                    if last != MOD_SUCCEED then failed + {j} else failed,
                    callbacks, multiset{Token(r, Counted(j, count, last))})
  {
    var t := Token(r, Run(j, last));
    EveryTokenCanStep(g, o, acts, s, t);
    s' := Apply(g, o, s, Action(t, true));
    OneMoreStep(g, o, acts, s, Action(t, true), s');
    assert s.tokens - multiset{t} == callbacks;
  }

  lemma CompareStep<N(!new)>(g: Graph<N>, o: N -> Outcome, acts: seq<Action<N>>, s: State<N>,
      exit: bool, joined: map<N, nat>, failed: set<N>, callbacks: multiset<Token<N>>,
      r: Region<N>, j: N, count: nat, last: ModState) returns (s': State<N>)
    requires Matches(g, o, acts, s, exit, joined, failed, callbacks, multiset{Token(r, Counted(j, count, last))})
    ensures s'.ended == s.ended && g.kind(j).Join? && g.kind(g.kind(j).fork).Fork?
    ensures var emitted := if j in failed then MOD_FAILED else MOD_SUCCEED;
            Matches(g, o, acts + [Action(Token(r, Counted(j, count, last)), true)], s', exit, joined, failed,
                    if count == g.kind(g.kind(j).fork).active
                        then callbacks + multiset{Token(g.region(j), JoinTimer(j, emitted))} else callbacks,
                    multiset{})
  {
    var t := Token(r, Counted(j, count, last));
    EveryTokenCanStep(g, o, acts, s, t);
    s' := Apply(g, o, s, Action(t, true));
    OneMoreStep(g, o, acts, s, Action(t, true), s');
    assert s.tokens - multiset{t} == callbacks;
  }

  lemma LeaveStep<N(!new)>(g: Graph<N>, o: N -> Outcome, acts: seq<Action<N>>, s: State<N>,
      exit: bool, joined: map<N, nat>, failed: set<N>, callbacks: multiset<Token<N>>,
      r: Region<N>, n: N, st: ModState) returns (s': State<N>)
    requires Matches(g, o, acts, s, exit, joined, failed, callbacks, multiset{Token(r, Leave(n, st))})
    ensures var acts' := acts + [Action(Token(r, Leave(n, st)), true)];
            && s.ended == 0 && s'.ended == (if n == g.end || g.next(n, st).None? then 1 else 0)
            && (n == g.end ==> Matches(g, o, acts', s', exit, joined, failed, callbacks, multiset{}))
            && (n != g.end && g.next(n, st).None? ==>
                  Matches(g, o, acts', s', true, joined, failed, callbacks, multiset{}))
            && (n != g.end && g.next(n, st).Some? ==>
                  && Matches(g, o, acts', s', exit, joined, failed, callbacks,
                       multiset{Token(r, Run(g.next(n, st).value, st))})
                  && g.rank(g.next(n, st).value) < g.rank(n))
  {
    var t := Token(r, Leave(n, st));
    EveryTokenCanStep(g, o, acts, s, t);
    NotYetEnded(g, o, acts, s, t);
    if n != g.end && g.next(n, st).Some? {
      RankDrops(g, o, acts, s, t);
    }
    s' := Apply(g, o, s, Action(t, true));
    OneMoreStep(g, o, acts, s, Action(t, true), s');
    assert s.tokens - multiset{t} == callbacks;
  }

  /** The state a handler resumes the engine with, unless it loses its continuation. */
  function Answer<N>(o: N -> Outcome, t: Token<N>): Option<ModState> {
    match t.place
    case Pending(n) => if o(n).Resumes? then Some(o(n).state) else None
    case ForkTimer(f) => if t.region.Branch? && t.region.index < UINT16_MODULUS then Some(MOD_FORK0 + t.region.index)
        else None
    case JoinTimer(_, st) => Some(st)
    case _ => None
  }

  /** The token of the handler's thread as it calls `resume`. */
  ghost function Resuming<N>(t: Token<N>, answer: Option<ModState>): multiset<Token<N>> {
    if answer.Some? then multiset{Token(t.region, Leave(t.place.node, answer.value))} else multiset{}
  }

  predicate Exits<N>(o: N -> Outcome, t: Token<N>) {
    t.place.Pending? && o(t.place.node).Resumes? && o(t.place.node).exits
  }

  ghost predicate HandlerDid<N>(o: N -> Outcome, s: State<N>, t: Token<N>, s': State<N>) {
    && s'.tokens == s.tokens - multiset{t} + Resuming(t, Answer(o, t))
    && s'.exit == (s.exit || Exits(o, t))
    && s'.joined == s.joined && s'.failed == s.failed && s'.ended == s.ended
  }

  predicate IsHandler<N>(t: Token<N>) {
    t.place.Pending? || t.place.ForkTimer? || t.place.JoinTimer?
  }

  lemma HandlerEffect<N(!new)>(g: Graph<N>, o: N -> Outcome, s: State<N>, t: Token<N>, s': State<N>)
    requires IsHandler(t) && Enabled(g, o, s, Action(t, true)) && s' == Apply(g, o, s, Action(t, true))
    ensures HandlerDid(o, s, t, s')
  {
    var rest := s.tokens - multiset{t};
    match t.place
    case Pending(n) => assert o(n).Drops? ==> rest + multiset{} == rest;
    case ForkTimer(_) =>
    case JoinTimer(_, _) =>
  }

  lemma HandlerAdvances<N(!new)>(g: Graph<N>, o: N -> Outcome, acts: seq<Action<N>>, s: State<N>, t: Token<N>)
      returns (s': State<N>)
    requires Reached(g, o, acts, s) && t in s.tokens && IsHandler(t)
    ensures Reached(g, o, acts + [Action(t, true)], s') && HandlerDid(o, s, t, s')
  {
    EveryTokenCanStep(g, o, acts, s, t);
    s' := Apply(g, o, s, Action(t, true));
    HandlerEffect(g, o, s, t, s');
    OneMoreStep(g, o, acts, s, Action(t, true), s');
  }

  lemma HandlerStep<N(!new)>(g: Graph<N>, o: N -> Outcome, acts: seq<Action<N>>, s: State<N>,
      exit: bool, joined: map<N, nat>, failed: set<N>, callbacks: multiset<Token<N>>,
          t: Token<N>) returns (s': State<N>)
    requires Matches(g, o, acts, s, exit, joined, failed, callbacks, multiset{}) && t in callbacks && IsHandler(t)
    ensures s.ended == 0 && s'.ended == 0
    ensures Matches(g, o, acts + [Action(t, true)], s', exit || Exits(o, t), joined, failed, callbacks - multiset{t},
                    Resuming(t, Answer(o, t)))
  {
    NotYetEnded(g, o, acts, s, t);
    s' := HandlerAdvances(g, o, acts, s, t);
    assert s.tokens == callbacks;
  }

  // ---------------------------------------------------------------------------------------------
  // The context
  // ---------------------------------------------------------------------------------------------

  class Context<N(==, !new)> {
    const g: Graph<N>
    const generation: nat
    const behaviour: Behaviour<N>
    var exit: bool
    var joined: map<N, nat>
    var failed: set<N>
    /** The handlers that have been given to the io service and not been called yet. */
    var callbacks: multiset<Token<N>>
    /** The context that continues the connection after this one. */
    var successor: Context?<N>
    /** The steps of the token protocol this context has made, and where they lead. */
    ghost var acts: seq<Action<N>>
    ghost var state: State<N>

    /** `running` holds the token of the thread that is inside the engine, if any. */
    ghost predicate Valid(running: multiset<Token<N>>)
      reads this
    {
      && Matches(g, behaviour.outcome, acts, state, exit, joined, failed, callbacks, running)
      && Plausible(behaviour) && g == behaviour.g && OnlyLateAnswers(callbacks)
      && (successor != null ==> state.ended == 1)
    }

    /** The io service holds no handler of a module that answers at once. */
    ghost predicate OnlyLateAnswers(handlers: multiset<Token<N>>) {
      forall t | t in handlers && t.place.Pending? :: !behaviour.atOnce(t.place.node)
    }

    /** Between handlers: there is a successor exactly when the request has ended without exit. */
    ghost predicate Idle()
      reads this
    {
      Valid(multiset{}) && (successor != null <==> state.ended == 1 && !exit)
    }

    /** `c` is ready to serve the next request of the connection. */
    ghost predicate Follows(c: Context<N>, next: nat -> Behaviour<N>)
      reads c
    {
      c.Idle() && c.generation == generation + 1 && c.behaviour == next(generation + 1)
    }

    constructor (generation: nat, behaviour: Behaviour<N>)
      requires WellNested(behaviour.g) && Plausible(behaviour)
      ensures Valid(multiset{Token(Top, Run(g.start, MOD_START))}) && successor == null && acts == []
      ensures g == behaviour.g && this.generation == generation && this.behaviour == behaviour
    {
      g, this.generation, this.behaviour := behaviour.g, generation, behaviour;
      exit, joined, failed, callbacks, successor := false, map[], {}, multiset{}, null;
      acts, state := [], Init(behaviour.g);
    }

    // -------------------------------------------------------------------------------------------
    // Module calls
    // -------------------------------------------------------------------------------------------

    /** A module of the user that answers from its `run`. */
    method TakeAnswer(n: N, last: ModState, r: Region<N>) returns (state': ModState)
      requires Valid(multiset{Token(r, Run(n, last))}) && g.kind(n).Simple? && behaviour.atOnce(n)
      modifies this`exit, this`acts, this`state
      ensures old(acts) < acts && state.ended == old(state.ended)
      ensures state' == behaviour.outcome(n).state && Valid(multiset{Token(r, Leave(n, state'))})
    {
      state := AnswerNow(g, behaviour.outcome, acts, state, exit, joined, failed, callbacks, r, n, last);
      acts := acts + [Action(Token(r, Run(n, last)), false)];
      state' := behaviour.outcome(n).state;
      exit := exit || behaviour.outcome(n).exits;
    }

    /** A module of the user that gives a handler to the io service. */
    method AwaitAnswer(n: N, last: ModState, r: Region<N>)
      requires Valid(multiset{Token(r, Run(n, last))}) && g.kind(n).Simple? && !behaviour.atOnce(n)
      modifies this`callbacks, this`acts, this`state
      ensures old(acts) < acts && state.ended == old(state.ended)
      ensures Valid(multiset{}) && callbacks == old(callbacks) + multiset{Token(r, Pending(n))}
    {
      state := AnswerLater(g, behaviour.outcome, acts, state, exit, joined, failed, callbacks, r, n, last);
      acts := acts + [Action(Token(r, Run(n, last)), true)];
      callbacks := callbacks + multiset{Token(r, Pending(n))};
    }

    /** A module of the user: it answers now, or its handler will. */
    method RunSimple(n: N, last: ModState, r: Region<N>) returns (answer: Option<ModState>)
      requires Valid(multiset{Token(r, Run(n, last))}) && g.kind(n).Simple?
      modifies this`exit, this`callbacks, this`acts, this`state
      ensures old(acts) < acts && state.ended == old(state.ended)
      ensures answer == if behaviour.atOnce(n) then Some(behaviour.outcome(n).state) else None
      ensures answer.None? ==> Valid(multiset{}) && callbacks == old(callbacks) + multiset{Token(r, Pending(n))}
      ensures answer.Some? ==> Valid(multiset{Token(r, Leave(n, answer.value))}) && callbacks == old(callbacks)
    {
      if behaviour.atOnce(n) {
        var state' := TakeAnswer(n, last, r);
        answer := Some(state');
      } else {
        AwaitAnswer(n, last, r);
        answer := None;
      }
    }

    /** One turn of the loop of `ForkModule::run`. */
    method ArmTimer(f: N, i: nat)
      requires g.kind(f).Fork? && i < g.kind(f).active && Valid(ArmingToken(f, i, g.kind(f).active))
      modifies this`callbacks, this`acts, this`state
      ensures old(acts) < acts && state.ended == old(state.ended)
      ensures Valid(ArmingToken(f, i + 1, g.kind(f).active))
      ensures callbacks == old(callbacks) + multiset{Token(Region.Branch(f, i), ForkTimer(f))}
    {
      state := ArmTimerStep(g, behaviour.outcome, acts, state, exit, joined, failed, callbacks, f, i);
      acts := acts + [Action(Token(Region.Branch(f, i), Arming(f)), true)];
      callbacks := callbacks + multiset{Token(Region.Branch(f, i), ForkTimer(f))};
    }

    /** One timer for each active branch, armed one after the other. */
    method ArmTimers(f: N)
      requires g.kind(f).Fork? && Valid(ArmingToken(f, 0, g.kind(f).active))
      modifies this`callbacks, this`acts, this`state
      ensures old(acts) <= acts && state.ended == old(state.ended)
      ensures Valid(ArmingToken(f, g.kind(f).active, g.kind(f).active))
      ensures callbacks == old(callbacks) + ForkTimers(f, g.kind(f).active)
    {
      var i := 0;
      while i < g.kind(f).active
        invariant i <= g.kind(f).active && Valid(ArmingToken(f, i, g.kind(f).active))
        invariant callbacks == old(callbacks) + ForkTimers(f, i)
        invariant old(acts) <= acts && state.ended == old(state.ended)
      {
        ArmTimer(f, i);
        i := i + 1;
      }
    }

    /** `ForkModule::run`. */
    method RunFork(f: N, last: ModState, r: Region<N>)
      requires Valid(multiset{Token(r, Run(f, last))}) && g.kind(f).Fork?
      modifies this
      ensures old(acts) < acts && successor == old(successor) && state.ended == old(state.ended)
      ensures Valid(multiset{})
      ensures callbacks == old(callbacks) + ForkTimers(f, g.kind(f).active)
    {
      state := SplitStep(g, behaviour.outcome, acts, state, exit, joined, failed, callbacks, r, f, last);
      acts := acts + [Action(Token(r, Run(f, last)), true)];
      ArmTimers(f);
      assert ArmingToken(f, g.kind(f).active, g.kind(f).active) == multiset{};
    }

    /** `JoinModule::run`: flag and count under the lock, then compare, read the flag and arm the timer. */
    method RunJoin(j: N, last: ModState, r: Region<N>)
      requires Valid(multiset{Token(r, Run(j, last))}) && g.kind(j).Join?
      modifies this
      ensures old(acts) < acts && successor == old(successor) && state.ended == old(state.ended)
      ensures Valid(multiset{})
    {
      var count := CountArrival(j, last, r);
      state := CompareStep(g, behaviour.outcome, acts, state, exit, joined, failed, callbacks, r, j, count, last);
      acts := acts + [Action(Token(r, Counted(j, count, last)), true)];
      if count == g.kind(g.kind(j).fork).active {
        var emitted := if j in failed then MOD_FAILED else MOD_SUCCEED;
        callbacks := callbacks + multiset{Token(g.region(j), JoinTimer(j, emitted))};
      }
    }

    /** The part of a join under its lock. */
    method CountArrival(j: N, last: ModState, r: Region<N>) returns (count: nat)
      requires Valid(multiset{Token(r, Run(j, last))}) && g.kind(j).Join?
      modifies this
      ensures old(acts) < acts && successor == old(successor) && state.ended == old(state.ended)
          && callbacks == old(callbacks)
      ensures Valid(multiset{Token(r, Counted(j, count, last))})
    {
      count := Increment16(if j in joined then joined[j] else 0);
      state := CountStep(g, behaviour.outcome, acts, state, exit, joined, failed, callbacks, r, j, last, count);
      acts := acts + [Action(Token(r, Run(j, last)), true)];
      if last != MOD_SUCCEED {
        failed := failed + {j};
      }
      joined := joined[j := count];
    }

    // -------------------------------------------------------------------------------------------
    // The engine
    // -------------------------------------------------------------------------------------------

    /** Creates the next context of the connection unless the exit flag is set. */
    method EndRequest(next: nat -> Behaviour<N>)
      requires Sound(next) && Valid(multiset{}) && state.ended == 1 && successor == null
      modifies this`successor
      ensures Idle()
      ensures successor != null ==> fresh(successor) && Follows(successor, next)
      decreases 1, 0, 0
    {
      if !exit {
        var context := new Context(generation + 1, next(generation + 1));
        context.HandleRequest(next);
        successor := context;
      }
    }

    method HandleRequest(next: nat -> Behaviour<N>)
      requires Sound(next) && Valid(multiset{Token(Top, Run(g.start, MOD_START))}) && acts == []
      modifies this
      ensures Idle()
      decreases 0, g.rank(g.start) + 1, 0
    {
      RunModule(g.start, MOD_START, next, Top);
    }

    /** `_run`. */
    method RunModule(n: N, last: ModState, next: nat -> Behaviour<N>, r: Region<N>)
      requires Sound(next) && Valid(multiset{Token(r, Run(n, last))})
      modifies this
      ensures Idle() && old(acts) < acts
      ensures successor != null ==> fresh(successor) && Follows(successor, next)
      decreases if n == g.start then 0 else 2, g.rank(n), 1
    {
      NotYetEnded(g, behaviour.outcome, acts, state, Token(r, Run(n, last)));
      var answer: Option<ModState> := None;
      match g.kind(n) {
        case Simple => answer := RunSimple(n, last, r);
        case Fork(_, _) => RunFork(n, last, r);
        case Join(_) => RunJoin(n, last, r);
      }
      if answer.Some? {
        Resume(n, answer.value, next, r);
      }
    }

    method Resume(n: N, st: ModState, next: nat -> Behaviour<N>, r: Region<N>)
      requires Sound(next) && Valid(multiset{Token(r, Leave(n, st))})
      modifies this
      ensures Idle() && old(acts) < acts
      ensures successor != null ==> fresh(successor) && Follows(successor, next)
      decreases 2, g.rank(n), 0
    {
      state := LeaveStep(g, behaviour.outcome, acts, state, exit, joined, failed, callbacks, r, n, st);
      acts := acts + [Action(Token(r, Leave(n, st)), true)];
      if n == g.end {
        EndRequest(next);
        return;
      }
      var to := g.next(n, st);
      if to.None? {
        exit := true;
        EndRequest(next);
        return;
      }
      RunModule(to.value, st, next, r);
    }

    // -------------------------------------------------------------------------------------------
    // Handlers called by the io service
    // -------------------------------------------------------------------------------------------

    /** The handler of `t` is called; it resumes the engine with the answer, if there is one. */
    method TakeCallback(t: Token<N>) returns (answer: Option<ModState>)
      requires Idle() && t in callbacks && IsHandler(t)
      modifies this
      ensures answer == Answer(behaviour.outcome, t)
      ensures Valid(Resuming(t, answer))
      ensures state.ended == 0 && successor == null && old(successor) == null && old(acts) < acts
    {
      state := HandlerStep(g, behaviour.outcome, acts, state, exit, joined, failed, callbacks, t);
      acts := acts + [Action(t, true)];
      callbacks := callbacks - multiset{t};
      exit := exit || Exits(behaviour.outcome, t);
      answer := Answer(behaviour.outcome, t);
    }

    /** A fork or join timer fires (`on_forked`, `on_joined`), or a module of the user resumes the engine or
        loses its continuation. */
    method OnCallback(t: Token<N>, next: nat -> Behaviour<N>)
      requires Sound(next) && Idle() && t in callbacks && IsHandler(t)
      modifies this
      ensures Idle() && old(acts) < acts
      ensures old(successor) == null
      ensures successor != null ==> fresh(successor) && Follows(successor, next)
    {
      var answer := TakeCallback(t);
      if answer.Some? {
        Resume(t.place.node, answer.value, next, t.region);
      }
    }
  }

  /** Whatever handlers have been called so far: a context has ended at most once; when no handler is left and no
      continuation was lost, it has ended exactly if every fork it ran had an active branch, and has a successor
      exactly if moreover the exit flag is not set.  It never waits for a module that answers at once. */
  lemma ContextEndsOnce<N(!new)>(c: Context<N>)
    requires c.Idle()
    ensures c.state.ended <= 1
    ensures c.callbacks == multiset{} && c.state.dropped == 0 ==>
              (c.state.ended == 1 <==> NoEmptyFork(c.g, c.state))
              && (c.successor != null <==> NoEmptyFork(c.g, c.state) && !c.exit)
    ensures c.successor != null ==> c.state.ended == 1 && forall t | t in c.callbacks :: Spent(c.g, t)
    ensures forall t | t in c.callbacks && t.place.Pending? :: !c.behaviour.atOnce(t.place.node)
  {
    EndsAtMostOnce(c.g, c.behaviour.outcome, c.acts, c.state);
    if c.callbacks == multiset{} && c.state.dropped == 0 {
      EndsExactlyOnce(c.g, c.behaviour.outcome, c.acts, c.state);
    }
    if c.successor != null {
      forall t | t in c.callbacks ensures Spent(c.g, t) {
        NothingRunsAfterTheEnd(c.g, c.behaviour.outcome, c.acts, c.state, t);
      }
    }
  }
}
