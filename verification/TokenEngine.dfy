/**
 The request engine as a token protocol.

 One request context is a set of outstanding callbacks ("tokens").  A token moves from module to module
 along the links, a fork turns it into one token per active branch and a join absorbs the branches and
 emits one token again.  Threads interleave between any two module calls, and inside a join between the
 locked section and the comparison that follows it.

 Everything here is about an arbitrary well-nested graph; the module `ExampleRequest` shows that the graph
 built by the example server is one.
 */
module TokenEngine {
  import opened ModStates

  /** The part of a context a token works for: the request itself, or one branch of a fork. */
  datatype Region<+N> = Top | Branch(fork: N, index: nat)

  /** `active` is the number of branches the fork activates in this context (and its join waits for). */
  datatype Kind<+N> = Simple | Fork(join: N, active: nat) | Join(fork: N)

  /** What the user-supplied part of a module does in this context: it continues the request with some
      state, possibly after setting the exit flag, or its continuation is dropped. */
  datatype Outcome = Resumes(state: ModState, exits: bool) | Drops

  datatype Graph<!N> = Graph(
    next: (N, ModState) -> Option<N>,
    kind: N -> Kind<N>,
    region: N -> Region<N>,
    rank: N -> nat,
    depth: N -> nat,
    start: N,
    end: N)

  /** Where a token is.  `Leave` is the point in `_run`/`resume` where the module has produced its state
      and the successor has not been looked up yet; `Counted` is the point in `JoinModule::run` after the
      unlock, with the local counter value and the local argument of the call; `Arming` is the loop of
      `ForkModule::run` about to arm the timer of the branch the token is labelled with. */
  datatype Place<+N> =
    | Run(node: N, last: ModState)
    | Pending(node: N)
    | Leave(node: N, state: ModState)
    | Arming(node: N)
    | ForkTimer(node: N)
    | Counted(node: N, count: nat, last: ModState)
    | JoinTimer(node: N, state: ModState)

  /** `region` is a history label: no step branches on it except for the number of a fork's branch, which is its
      loop variable and numbers its states. */
  datatype Token<+N> = Token(region: Region<N>, place: Place<N>)

  datatype State<!N> = State(
    tokens: multiset<Token<N>>,
    joined: map<N, nat>,
    failed: set<N>,
    exit: bool,
    ended: nat,
    dropped: nat,
    runs: multiset<N>)

  /** One step: the callback or thread `token` advances.  `async` says whether a simple module answers
      later (`Mod_async`) or at once. */
  datatype Action<+N> = Action(token: Token<N>, async: bool)

  // ---------------------------------------------------------------------------------------------
  // Well-nested graphs
  // ---------------------------------------------------------------------------------------------

  /** A token of region `r` may be handed to module `n`: `n` belongs to `r`, or is the join closing `r`. */
  ghost predicate Enters<N>(g: Graph<N>, n: N, r: Region<N>) {
    match g.kind(n)
    case Join(f) => r.Branch? && r.fork == f
    case _ => g.region(n) == r
  }

  ghost predicate LeadsOn<N>(g: Graph<N>, n: N, st: ModState, r: Region<N>) {
    match g.next(n, st)
    case None => r == Top
    case Some(m) => g.rank(m) < g.rank(n) && Enters(g, m, r)
  }

  ghost predicate ForkOk<N>(g: Graph<N>, f: N)
    requires g.kind(f).Fork?
  {
    var Fork(j, a) := g.kind(f);
    && a < UINT16_MODULUS
    && g.kind(j) == Kind.Join(f)
    && g.region(j) == g.region(f)
    && g.rank(j) < g.rank(f)
    && forall k: nat | k < a :: LeadsOn(g, f, MOD_FORK0 + k, Region.Branch(f, k))
  }

  ghost predicate JoinOk<N>(g: Graph<N>, j: N)
    requires g.kind(j).Join?
  {
    && g.kind(g.kind(j).fork).Fork?
    && g.kind(g.kind(j).fork).join == j
    && LeadsOn(g, j, MOD_SUCCEED, g.region(j))
    && LeadsOn(g, j, MOD_FAILED, g.region(j))
  }

  ghost predicate NodeOk<N(!new)>(g: Graph<N>, n: N) {
    && (g.kind(n).Simple? && n != g.end ==> forall st: ModState :: LeadsOn(g, n, st, g.region(n)))
    && (g.kind(n).Fork? ==> ForkOk(g, n))
    && (g.kind(n).Join? ==> JoinOk(g, n))
    && (g.region(n).Branch? ==>
          var Branch(f, k) := g.region(n);
          g.kind(f).Fork? && k < g.kind(f).active && g.rank(n) < g.rank(f) && g.depth(f) < g.depth(n))
  }

  ghost predicate WellNested<N(!new)>(g: Graph<N>) {
    && g.kind(g.start).Simple? && g.region(g.start) == Top
    && g.kind(g.end).Simple? && g.region(g.end) == Top
    && forall n: N :: NodeOk(g, n)
  }

  // ---------------------------------------------------------------------------------------------
  // The step system
  // ---------------------------------------------------------------------------------------------

  ghost function Init<N>(g: Graph<N>): State<N> {
    State(multiset{Token(Top, Run(g.start, MOD_START))}, map[], {}, false, 0, 0, multiset{})
  }

  ghost function Joined<N>(s: State<N>, j: N): nat {
    if j in s.joined then s.joined[j] else 0
  }

  /** The thread in the loop of `f`, about to arm timer `k`; it has returned after the last one. */
  ghost function ArmingToken<N>(f: N, k: nat, active: nat): multiset<Token<N>> {
    if k < active then multiset{Token(Region.Branch(f, k), Arming(f))} else multiset{}
  }

  ghost predicate Enabled<N>(g: Graph<N>, o: N -> Outcome, s: State<N>, a: Action<N>) {
    && a.token in s.tokens
    && (a.token.place.Run? && g.kind(a.token.place.node).Simple? && !a.async
        ==> o(a.token.place.node).Resumes?)
    && (a.token.place.Arming? ==> a.token.region.Branch? && g.kind(a.token.place.node).Fork?)
    && (a.token.place.ForkTimer? ==> a.token.region.Branch? && a.token.region.index < UINT16_MODULUS)
    && (a.token.place.Counted? ==> g.kind(a.token.place.node).Join? && g.kind(g.kind(a.token.place.node).fork).Fork?)
  }

  ghost function Apply<N>(g: Graph<N>, o: N -> Outcome, s: State<N>, a: Action<N>): State<N>
    requires Enabled(g, o, s, a)
  {
    var rest := s.tokens - multiset{a.token};
    var r := a.token.region;
    match a.token.place
    case Run(n, last) => (
      var s := s.(runs := s.runs + multiset{n});
      match g.kind(n)
      case Join(_) =>
        var count := Increment16(Joined(s, n));
        s.(tokens := rest + multiset{Token(r, Counted(n, count, last))},
           joined := s.joined[n := count],
           failed := if last != MOD_SUCCEED then s.failed + {n} else s.failed)
      case Fork(_, active) =>
        s.(tokens := rest + ArmingToken(n, 0, active))
      case Simple =>
        if a.async then
          s.(tokens := rest + multiset{Token(r, Pending(n))})
        else
          s.(tokens := rest + multiset{Token(r, Leave(n, o(n).state))}, exit := s.exit || o(n).exits))
    case Pending(n) =>
      if o(n).Drops? then
        s.(tokens := rest, dropped := s.dropped + 1)
      else
        s.(tokens := rest + multiset{Token(r, Leave(n, o(n).state))}, exit := s.exit || o(n).exits)
    case Arming(f) =>
      s.(tokens := rest + (multiset{Token(r, ForkTimer(f))} + ArmingToken(f, r.index + 1, g.kind(f).active)))
    case ForkTimer(f) =>
      s.(tokens := rest + multiset{Token(r, Leave(f, MOD_FORK0 + r.index))})
    case Leave(n, st) =>
      if n == g.end then
        s.(tokens := rest, ended := s.ended + 1)
      else (
        match g.next(n, st)
        case None => s.(tokens := rest, ended := s.ended + 1, exit := true)
        case Some(m) => s.(tokens := rest + multiset{Token(r, Run(m, st))}))
    case Counted(j, count, _) =>
      if count == g.kind(g.kind(j).fork).active then
        var st := if j in s.failed then MOD_FAILED else MOD_SUCCEED;
        s.(tokens := rest + multiset{Token(g.region(j), JoinTimer(j, st))})
      else
        s.(tokens := rest)
    case JoinTimer(j, st) =>
      s.(tokens := rest + multiset{Token(r, Leave(j, st))})
  }

  /** `acts` is a schedule the engine can follow from the start of a context. */
  ghost predicate Schedule<N>(g: Graph<N>, o: N -> Outcome, acts: seq<Action<N>>)
    decreases |acts|, 0
  {
    acts == [] || (
      && Schedule(g, o, acts[..|acts| - 1])
      && Enabled(g, o, Exec(g, o, acts[..|acts| - 1]), acts[|acts| - 1]))
  }

  ghost function Exec<N>(g: Graph<N>, o: N -> Outcome, acts: seq<Action<N>>): State<N>
    requires Schedule(g, o, acts)
    decreases |acts|, 1
  {
    if acts == [] then Init(g)
    else Apply(g, o, Exec(g, o, acts[..|acts| - 1]), acts[|acts| - 1])
  }

  /** A label without content: what stands under it is only looked at by a proof that mentions it. */
  ghost predicate Unfolded(i: int) { true }

  /** In a well-nested graph the steps `acts`, a schedule, lead a new context to `s`. */
  ghost predicate Reached<N(!new)>(g: Graph<N>, o: N -> Outcome, acts: seq<Action<N>>, s: State<N>) {
    forall i: int :: Unfolded(i) ==> WellNested(g) && Schedule(g, o, acts) && s == Exec(g, o, acts)
  }

  // ---------------------------------------------------------------------------------------------
  // The sequential meaning of a context
  // ---------------------------------------------------------------------------------------------

  /** How a region finishes: it reaches its join with a state, ends the request, or is lost, because a
      continuation is dropped or because a fork activates no branch and its join waits for ever. */
  datatype Verdict = Arrives(state: ModState) | Ends | Lost

  ghost function EvalRun<N(!new)>(g: Graph<N>, o: N -> Outcome, n: N, last: ModState): Verdict
    requires WellNested(g)
    decreases g.rank(n), 2, 0
  {
    assert NodeOk(g, n);
    match g.kind(n)
    case Join(_) => Arrives(last)
    case Simple => if o(n).Drops? then Lost else EvalLeave(g, o, n, o(n).state)
    case Fork(j, active) =>
      if active == 0 then Lost else
      var all := EvalBranches(g, o, n, active);
      if all.Arrives? then EvalLeave(g, o, j, all.state) else Lost
  }

  /** The first `k` branches together: they succeed when each one does. */
  ghost function EvalBranches<N(!new)>(g: Graph<N>, o: N -> Outcome, f: N, k: nat): (v: Verdict)
    requires WellNested(g) && g.kind(f).Fork? && k <= g.kind(f).active
    ensures v == Arrives(MOD_SUCCEED) || v == Arrives(MOD_FAILED) || v == Lost
    decreases g.rank(f), 1, k
  {
    if k == 0 then Arrives(MOD_SUCCEED)
    else
      var before, own := EvalBranches(g, o, f, k - 1), EvalBranch(g, o, f, k - 1);
      if before == Lost || !own.Arrives? then Lost
      else if own == Arrives(MOD_SUCCEED) then before
      else Arrives(MOD_FAILED)
  }

  ghost function EvalBranch<N(!new)>(g: Graph<N>, o: N -> Outcome, f: N, k: nat): Verdict
    requires WellNested(g) && g.kind(f).Fork? && k < g.kind(f).active
    decreases g.rank(f), 0, 0
  {
    assert NodeOk(g, f);
    assert LeadsOn(g, f, MOD_FORK0 + k, Region.Branch(f, k));
    match g.next(f, MOD_FORK0 + k)
    case None => Lost
    case Some(m) => EvalRun(g, o, m, MOD_FORK0 + k)
  }

  ghost function EvalLeave<N(!new)>(g: Graph<N>, o: N -> Outcome, n: N, st: ModState): Verdict
    requires WellNested(g) && !g.kind(n).Fork?
    requires g.kind(n).Join? ==> st == MOD_SUCCEED || st == MOD_FAILED
    decreases g.rank(n), 0, 0
  {
    assert NodeOk(g, n);
    if n == g.end then Ends
    else
      assert LeadsOn(g, n, st, g.region(n));
      match g.next(n, st)
      case None => Ends
      case Some(m) => EvalRun(g, o, m, st)
  }

  /** The meaning of a region: of the whole request, or of one branch. */
  ghost function Val<N(!new)>(g: Graph<N>, o: N -> Outcome, r: Region<N>): Verdict
    requires WellNested(g)
  {
    match r
    case Top => EvalRun(g, o, g.start, MOD_START)
    case Branch(f, k) => if g.kind(f).Fork? && k < g.kind(f).active then EvalBranch(g, o, f, k) else Lost
  }

  lemma {:induction false} BranchesMeaning<N(!new)>(g: Graph<N>, o: N -> Outcome, f: N, k: nat)
    requires WellNested(g) && g.kind(f).Fork? && k <= g.kind(f).active
    ensures EvalBranches(g, o, f, k) == Lost <==> exists i: nat :: i < k && !Val(g, o, Region.Branch(f, i)).Arrives?
    ensures EvalBranches(g, o, f, k) == Arrives(MOD_SUCCEED)
            <==> forall i: nat | i < k :: Val(g, o, Region.Branch(f, i)) == Arrives(MOD_SUCCEED)
  {
    if k > 0 {
      BranchesMeaning(g, o, f, k - 1);
      var own := Val(g, o, Region.Branch(f, k - 1));
      assert own == EvalBranch(g, o, f, k - 1);
      assert EvalBranches(g, o, f, k) == Lost <==> EvalBranches(g, o, f, k - 1) == Lost || !own.Arrives?;
      assert EvalBranches(g, o, f, k) == Arrives(MOD_SUCCEED)
        <==> EvalBranches(g, o, f, k - 1) == Arrives(MOD_SUCCEED) && own == Arrives(MOD_SUCCEED);
    }
  }
}
