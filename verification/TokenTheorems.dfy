/** The results about whole runs of the token protocol. */
module TokenTheorems {
  import opened ModStates
  import opened TokenEngine
  import opened TokenInvariant
  import opened TokenSteps

  // ---------------------------------------------------------------------------------------------
  // Every step keeps the invariant
  // ---------------------------------------------------------------------------------------------

  lemma InitInv<N(!new)>(g: Graph<N>, o: N -> Outcome)
    requires WellNested(g)
    ensures Inv(g, o, Init(g), map[Top := At(Token(Top, Run(g.start, MOD_START)))])
  {
  }

  lemma Located<N(!new)>(g: Graph<N>, s: State<N>, w: Whereabouts<N>, t: Token<N>)
    requires Shape(g, w) && TokensOk(s, w) && t in s.tokens
    ensures t.region in w && w[t.region] == At(t) && PlaceOk(g, t.region, t.place)
  {
    assert s.tokens[t] > 0;
    assert LocOk(g, t.region, w[t.region]);
  }

  /** Where a token goes in a step that touches neither a fork nor a join. */
  ghost function MoveTarget<N(!new)>(g: Graph<N>, o: N -> Outcome, s: State<N>, a: Action<N>): Loc<N>
    requires Enabled(g, o, s, a) && !a.token.place.Counted? && !a.token.place.Arming?
  {
    var Token(r, p) := a.token;
    match p
    case Run(n, _) => if a.async || o(n).Drops? then At(Token(r, Pending(n))) else At(Token(r, Leave(n, o(n).state)))
    case Pending(n) => if o(n).Drops? then Dropped else At(Token(r, Leave(n, o(n).state)))
    case ForkTimer(f) => At(Token(r, Leave(f, MOD_FORK0 + r.index)))
    case JoinTimer(j, st) => At(Token(r, Leave(j, st)))
    case Leave(n, st) => AfterLeave(g, r, n, st)
  }

  ghost predicate MovesTo<N(!new)>(g: Graph<N>, o: N -> Outcome, s: State<N>, w: Whereabouts<N>, a: Action<N>)
    requires WellNested(g) && Enabled(g, o, s, a) && !a.token.place.Counted? && !a.token.place.Arming?
  {
    var l, s' := MoveTarget(g, o, s, a), Apply(g, o, s, a);
    && Moves(g, o, s, w, a.token, l, s')
    && !HasArrived(At(a.token)) && !HasArrived(l) && SameArm(At(a.token), l)
    && s'.joined == s.joined && s'.failed == s.failed
  }

  lemma SimpleMoves<N(!new)>(g: Graph<N>, o: N -> Outcome, s: State<N>, w: Whereabouts<N>, a: Action<N>)
    requires WellNested(g) && Enabled(g, o, s, a) && a.token.place.Run? && g.kind(a.token.place.node).Simple?
    requires a.token.region in w && w[a.token.region] == At(a.token) && PlaceOk(g, a.token.region, a.token.place)
    requires EmitsMeaning(g, o, At(a.token))
    ensures MovesTo(g, o, s, w, a)
  {
  }

  lemma PendingMoves<N(!new)>(g: Graph<N>, o: N -> Outcome, s: State<N>, w: Whereabouts<N>, a: Action<N>)
    requires WellNested(g) && Enabled(g, o, s, a) && a.token.place.Pending?
    requires a.token.region in w && w[a.token.region] == At(a.token) && PlaceOk(g, a.token.region, a.token.place)
    requires EmitsMeaning(g, o, At(a.token))
    ensures MovesTo(g, o, s, w, a)
  {
    var n := a.token.place.node;
    var l := MoveTarget(g, o, s, a);
    if o(n).Drops? {
      assert LocVal(g, o, a.token.region, l) == Lost;
    } else {
      assert LocVal(g, o, a.token.region, l) == EvalLeave(g, o, n, o(n).state);
    }
  }

  lemma ForkTimerMoves<N(!new)>(g: Graph<N>, o: N -> Outcome, s: State<N>, w: Whereabouts<N>, a: Action<N>)
    requires WellNested(g) && Enabled(g, o, s, a) && a.token.place.ForkTimer?
    requires a.token.region in w && w[a.token.region] == At(a.token) && PlaceOk(g, a.token.region, a.token.place)
    requires EmitsMeaning(g, o, At(a.token))
    ensures MovesTo(g, o, s, w, a)
  {
  }

  lemma JoinTimerMoves<N(!new)>(g: Graph<N>, o: N -> Outcome, s: State<N>, w: Whereabouts<N>, a: Action<N>)
    requires WellNested(g) && Enabled(g, o, s, a) && a.token.place.JoinTimer?
    requires a.token.region in w && w[a.token.region] == At(a.token) && PlaceOk(g, a.token.region, a.token.place)
    requires EmitsMeaning(g, o, At(a.token))
    ensures MovesTo(g, o, s, w, a)
  {
  }

  lemma LeaveMoves<N(!new)>(g: Graph<N>, o: N -> Outcome, s: State<N>, w: Whereabouts<N>, a: Action<N>)
    requires WellNested(g) && Enabled(g, o, s, a) && a.token.place.Leave?
    requires a.token.region in w && w[a.token.region] == At(a.token) && PlaceOk(g, a.token.region, a.token.place)
    requires EmitsMeaning(g, o, At(a.token))
    ensures MovesTo(g, o, s, w, a)
  {
    AfterLeaveOk(g, o, a.token.region, a.token.place.node, a.token.place.state);
  }

  /** The whereabouts after a step. */
  ghost function WhereAfter<N(!new)>(g: Graph<N>, o: N -> Outcome, s: State<N>, w: Whereabouts<N>,
      a: Action<N>): Whereabouts<N>
    requires Enabled(g, o, s, a)
  {
    match a.token.place
    case Counted(j, count, _) =>
      if count == g.kind(g.kind(j).fork).active then AfterLast(g, s, w, a.token, j) else AfterSpent(w, a.token)
    case Arming(f) => AfterArming(w, f, a.token.region.index, g.kind(f).active)
    case Run(n, _) => (
      match g.kind(n)
      case Simple => w[a.token.region := MoveTarget(g, o, s, a)]
      case Fork(_, active) => AfterFork(w, a.token.region, n, active)
      case Join(_) => AfterArrival(w, a.token, Increment16(Joined(s, n))))
    case _ => w[a.token.region := MoveTarget(g, o, s, a)]
  }

  lemma MoveStep<N(!new)>(g: Graph<N>, o: N -> Outcome, s: State<N>, w: Whereabouts<N>, a: Action<N>)
      returns (w': Whereabouts<N>)
    requires WellNested(g) && Inv(g, o, s, w) && Enabled(g, o, s, a)
    requires !a.token.place.Counted? && !a.token.place.Arming?
    requires a.token.place.Run? ==> g.kind(a.token.place.node).Simple?
    ensures w' == WhereAfter(g, o, s, w, a) && Inv(g, o, Apply(g, o, s, a), w')
  {
    Located(g, s, w, a.token);
    assert EmitsMeaning(g, o, w[a.token.region]);
    match a.token.place {
      case Run(_, _) => SimpleMoves(g, o, s, w, a);
      case Pending(_) => PendingMoves(g, o, s, w, a);
      case ForkTimer(_) => ForkTimerMoves(g, o, s, w, a);
      case JoinTimer(_, _) => JoinTimerMoves(g, o, s, w, a);
      case Leave(_, _) => LeaveMoves(g, o, s, w, a);
    }
    w' := w[a.token.region := MoveTarget(g, o, s, a)];
    Move(g, o, s, w, a.token, MoveTarget(g, o, s, a), Apply(g, o, s, a), w');
  }

  lemma ForkRunStep<N(!new)>(g: Graph<N>, o: N -> Outcome, s: State<N>, w: Whereabouts<N>, a: Action<N>)
      returns (w': Whereabouts<N>)
    requires WellNested(g) && Inv(g, o, s, w) && Enabled(g, o, s, a)
    requires a.token.place.Run? && g.kind(a.token.place.node).Fork?
    ensures w' == WhereAfter(g, o, s, w, a) && Inv(g, o, Apply(g, o, s, a), w')
  {
    var f := a.token.place.node;
    Located(g, s, w, a.token);
    assert NodeOk(g, f);
    w' := AfterFork(w, a.token.region, f, g.kind(f).active);
    ForkStep(g, o, s, w, a.token, f, g.kind(f).active, Apply(g, o, s, a), w');
  }

  lemma JoinRunEffect<N(!new)>(g: Graph<N>, o: N -> Outcome, s: State<N>, a: Action<N>)
    requires Enabled(g, o, s, a) && a.token.place.Run? && g.kind(a.token.place.node).Join?
    ensures ArrivalEffect(s, a.token, Increment16(Joined(s, a.token.place.node)), Apply(g, o, s, a))
  {
  }

  lemma ArriveReady<N(!new)>(g: Graph<N>, s: State<N>, w: Whereabouts<N>, t: Token<N>)
    requires WellNested(g) && Shape(g, w) && TokensOk(s, w) && t in s.tokens
    requires t.place.Run? && g.kind(t.place.node).Join?
    ensures ArrivePre(g, w, t, t.place.node)
  {
    Located(g, s, w, t);
    assert NodeOk(g, t.place.node) && NodeOk(g, g.kind(t.place.node).fork);
  }

  lemma JoinRunInv<N(!new)>(g: Graph<N>, o: N -> Outcome, s: State<N>, w: Whereabouts<N>, t: Token<N>, count: nat,
      s': State<N>, w': Whereabouts<N>)
    requires WellNested(g) && Inv(g, o, s, w) && t in s.tokens
    requires t.place.Run? && g.kind(t.place.node).Join?
    requires count == Increment16(Joined(s, t.place.node)) && ArrivalEffect(s, t, count, s')
    requires w' == AfterArrival(w, t, count)
    ensures Inv(g, o, s', w')
  {
    ArriveReady(g, s, w, t);
    ArrivalCount(g, s, w, t, t.place.node);
    ArrivalStep(g, o, s, w, t, t.place.node, count, s', w');
  }

  lemma JoinRunStep<N(!new)>(g: Graph<N>, o: N -> Outcome, s: State<N>, w: Whereabouts<N>, a: Action<N>)
      returns (w': Whereabouts<N>)
    requires WellNested(g) && Inv(g, o, s, w) && Enabled(g, o, s, a)
    requires a.token.place.Run? && g.kind(a.token.place.node).Join?
    ensures w' == WhereAfter(g, o, s, w, a) && Inv(g, o, Apply(g, o, s, a), w')
  {
    JoinRunEffect(g, o, s, a);
    var count := Increment16(Joined(s, a.token.place.node));
    w' := AfterArrival(w, a.token, count);
    JoinRunInv(g, o, s, w, a.token, count, Apply(g, o, s, a), w');
  }

  /** What `_run` and `resume` do once a module has answered. */
  ghost function AfterLeave<N>(g: Graph<N>, r: Region<N>, n: N, st: ModState): Loc<N> {
    if n == g.end then Ended else
    match g.next(n, st)
    case None => Ended
    case Some(m) => At(Token(r, Run(m, st)))
  }

  lemma AfterLeaveOk<N(!new)>(g: Graph<N>, o: N -> Outcome, r: Region<N>, n: N, st: ModState)
    requires WellNested(g) && PlaceOk(g, r, Leave(n, st))
    ensures LocOk(g, r, AfterLeave(g, r, n, st))
    ensures Pos(g, AfterLeave(g, r, n, st)) <= 2 * g.rank(n)
    ensures LocVal(g, o, r, AfterLeave(g, r, n, st)) == PlaceVal(g, o, r, Leave(n, st))
  {
    assert NodeOk(g, n);
    if n != g.end {
      assert LeadsOn(g, n, st, r);
    }
  }

  lemma CountedStep<N(!new)>(g: Graph<N>, o: N -> Outcome, s: State<N>, w: Whereabouts<N>, a: Action<N>)
      returns (w': Whereabouts<N>)
    requires WellNested(g) && Inv(g, o, s, w) && Enabled(g, o, s, a) && a.token.place.Counted?
    ensures w' == WhereAfter(g, o, s, w, a) && Inv(g, o, Apply(g, o, s, a), w')
  {
    var j := a.token.place.node;
    Located(g, s, w, a.token);
    assert NodeOk(g, j);
    assert NodeOk(g, g.kind(j).fork);
    if a.token.place.count == g.kind(g.kind(j).fork).active {
      w' := AfterLast(g, s, w, a.token, j);
      LastStep(g, o, s, w, a.token, j, Apply(g, o, s, a), w');
    } else {
      w' := AfterSpent(w, a.token);
      SpentStep(g, o, s, w, a.token, Apply(g, o, s, a), w');
    }
  }

  lemma ArmingEffect<N(!new)>(g: Graph<N>, o: N -> Outcome, s: State<N>, a: Action<N>, f: N, k: nat, s': State<N>)
    requires Enabled(g, o, s, a) && a.token == Token(Region.Branch(f, k), Arming(f)) && s' == Apply(g, o, s, a)
    ensures ArmEffect(g, s, a.token, f, k, s')
  {
  }

  lemma ArmReady<N(!new)>(g: Graph<N>, s: State<N>, w: Whereabouts<N>, t: Token<N>)
    requires WellNested(g) && Shape(g, w) && TokensOk(s, w) && t in s.tokens && t.place.Arming?
    ensures t.region.Branch? && ArmPre(g, w, t, t.place.node, t.region.index)
  {
    Located(g, s, w, t);
  }

  lemma ArmingStep<N(!new)>(g: Graph<N>, o: N -> Outcome, s: State<N>, w: Whereabouts<N>, a: Action<N>)
      returns (w': Whereabouts<N>)
    requires WellNested(g) && Inv(g, o, s, w) && Enabled(g, o, s, a) && a.token.place.Arming?
    ensures w' == WhereAfter(g, o, s, w, a) && Inv(g, o, Apply(g, o, s, a), w')
  {
    var f, k := a.token.place.node, a.token.region.index;
    ArmReady(g, s, w, a.token);
    w' := AfterArming(w, f, k, g.kind(f).active);
    ArmingEffect(g, o, s, a, f, k, Apply(g, o, s, a));
    ArmStep(g, o, s, w, a.token, f, k, Apply(g, o, s, a), w');
  }

  /** Every step, by whichever thread, keeps the invariant. */
  lemma StepKeepsInv<N(!new)>(g: Graph<N>, o: N -> Outcome, s: State<N>, w: Whereabouts<N>, a: Action<N>)
      returns (w': Whereabouts<N>)
    requires WellNested(g) && Inv(g, o, s, w) && Enabled(g, o, s, a)
    ensures w' == WhereAfter(g, o, s, w, a) && Inv(g, o, Apply(g, o, s, a), w')
  {
    match a.token.place
    case Run(n, _) =>
      match g.kind(n) {
        case Simple => w' := MoveStep(g, o, s, w, a);
        case Fork(_, _) => w' := ForkRunStep(g, o, s, w, a);
        case Join(_) => w' := JoinRunStep(g, o, s, w, a);
      }
    case Counted(_, _, _) => w' := CountedStep(g, o, s, w, a);
    case Arming(_) => w' := ArmingStep(g, o, s, w, a);
    case _ => w' := MoveStep(g, o, s, w, a);
  }

  lemma {:induction false} ReachableInv<N(!new)>(g: Graph<N>, o: N -> Outcome, acts: seq<Action<N>>)
      returns (w: Whereabouts<N>)
    requires WellNested(g) && Schedule(g, o, acts)
    ensures Inv(g, o, Exec(g, o, acts), w)
    decreases |acts|
  {
    if acts == [] {
      InitInv(g, o);
      w := map[Top := At(Token(Top, Run(g.start, MOD_START)))];
    } else {
      var last := |acts| - 1;
      var w0 := ReachableInv(g, o, acts[..last]);
      w := StepKeepsInv(g, o, Exec(g, o, acts[..last]), w0, acts[last]);
    }
  }

  lemma OneMoreStep<N(!new)>(g: Graph<N>, o: N -> Outcome, acts: seq<Action<N>>, s: State<N>, a: Action<N>,
      s': State<N>)
    requires Reached(g, o, acts, s) && Enabled(g, o, s, a) && s' == Apply(g, o, s, a)
    ensures Reached(g, o, acts + [a], s')
  {
    assert Unfolded(0);
    assert (acts + [a])[..|acts|] == acts;
  }

  lemma ReachedInv<N(!new)>(g: Graph<N>, o: N -> Outcome, acts: seq<Action<N>>, s: State<N>) returns (w: Whereabouts<N>)
    requires Reached(g, o, acts, s)
    ensures WellNested(g) && Inv(g, o, s, w)
  {
    assert Unfolded(0);
    w := ReachableInv(g, o, acts);
  }

  // ---------------------------------------------------------------------------------------------
  // Results
  // ---------------------------------------------------------------------------------------------

  /** Whatever the interleaving, a context reaches `_end_request` at most once. */
  lemma EndsAtMostOnce<N(!new)>(g: Graph<N>, o: N -> Outcome, acts: seq<Action<N>>, s: State<N>)
    requires Reached(g, o, acts, s)
    ensures s.ended <= 1
  {
    var w := ReachedInv(g, o, acts, s);
  }

  /** A module other than a join is run at most once per context. */
  lemma RunsAtMostOnce<N(!new)>(g: Graph<N>, o: N -> Outcome, acts: seq<Action<N>>, s: State<N>, n: N)
    requires Reached(g, o, acts, s) && !g.kind(n).Join?
    ensures s.runs[n] <= 1
  {
    var w := ReachedInv(g, o, acts, s);
  }

  /** No callback is ever stuck: each outstanding token can take its next step. */
  lemma EveryTokenCanStep<N(!new)>(g: Graph<N>, o: N -> Outcome, acts: seq<Action<N>>, s: State<N>, t: Token<N>)
    requires Reached(g, o, acts, s) && t in s.tokens
    ensures Enabled(g, o, s, Action(t, true))
  {
    var w := ReachedInv(g, o, acts, s);
    Located(g, s, w, t);
    assert NodeOk(g, t.place.node);
  }

  /** Every fork that was run has activated a branch. */
  ghost predicate NoEmptyFork<N(!new)>(g: Graph<N>, s: State<N>) {
    forall f: N | f in s.runs && g.kind(f).Fork? :: g.kind(f).active >= 1
  }

  /** With no callback left, no continuation dropped and no empty fork, no fork is waiting. */
  lemma {:induction false} NoForkWaits<N(!new)>(g: Graph<N>, o: N -> Outcome, s: State<N>, w: Whereabouts<N>,
      r: Region<N>)
    requires WellNested(g) && Inv(g, o, s, w) && s.tokens == multiset{} && s.dropped == 0
    requires NoEmptyFork(g, s) && r in w
    ensures !w[r].InFork?
    decreases if w[r].InFork? then g.rank(w[r].fork) else 0
  {
    if w[r].InFork? {
      var f := w[r].fork;
      assert LocOk(g, r, w[r]);
      assert Forked(w, f) && ForkInv(g, s, w, f);
      forall k: nat | k < g.kind(f).active ensures ArrivedAt(w, Region.Branch(f, k)) {
        BranchIsHome(g, o, s, w, f, k);
      }
      CountBounds(w, f, g.kind(f).active);
      var k: nat :| k < g.kind(f).active && Region.Branch(f, k) in w
          && IsCounted(w[Region.Branch(f, k)], g.kind(f).active);
      NoTokenAt(g, s, w, Region.Branch(f, k));
    }
  }

  lemma NoTokenAt<N(!new)>(g: Graph<N>, s: State<N>, w: Whereabouts<N>, r: Region<N>)
    requires Shape(g, w) && TokensOk(s, w) && s.tokens == multiset{} && r in w
    ensures !w[r].At?
  {
    assert LocOk(g, r, w[r]);
    assert w[r].At? ==> s.tokens[w[r].token] == 1;
  }

  /** With no thread left in its loop, a fork has armed all its timers. */
  lemma {:induction false} AllArmed<N(!new)>(g: Graph<N>, s: State<N>, w: Whereabouts<N>, f: N, k: nat)
    requires Shape(g, w) && BranchesOk(g, w) && TokensOk(s, w) && s.tokens == multiset{} && Region.Branch(f, k) in w
    ensures !w[Region.Branch(f, k)].Unarmed?
  {
    assert ArmOk(w, f, k);
    if k > 0 {
      AllArmed(g, s, w, f, k - 1);
      NoTokenAt(g, s, w, Region.Branch(f, k - 1));
    }
  }

  lemma {:induction false} BranchIsHome<N(!new)>(g: Graph<N>, o: N -> Outcome, s: State<N>, w: Whereabouts<N>, f: N,
      k: nat)
    requires WellNested(g) && Inv(g, o, s, w) && s.tokens == multiset{} && s.dropped == 0
    requires NoEmptyFork(g, s) && g.kind(f).Fork? && Forked(w, f) && k < g.kind(f).active
    ensures ArrivedAt(w, Region.Branch(f, k))
    decreases g.rank(f), 0
  {
    var b := Region.Branch(f, k);
    assert b in w && LocOk(g, b, w[b]);
    NoTokenAt(g, s, w, b);
    AllArmed(g, s, w, f, k);
    if w[b].InFork? {
      assert NodeOk(g, w[b].fork);
      NoForkWaits(g, o, s, w, b);
      assert false;
    }
  }

  /** When no callbacks remain and none was dropped, the request has ended exactly once, if and only if every
      fork that it ran had an active branch. */
  lemma EndsExactlyOnce<N(!new)>(g: Graph<N>, o: N -> Outcome, acts: seq<Action<N>>, s: State<N>)
    requires Reached(g, o, acts, s)
    requires s.tokens == multiset{} && s.dropped == 0
    ensures s.ended == 1 <==> NoEmptyFork(g, s)
  {
    var w := ReachedInv(g, o, acts, s);
    NoTokenAt(g, s, w, Top);
    assert LocOk(g, Top, w[Top]);
    if NoEmptyFork(g, s) {
      NoForkWaits(g, o, s, w, Top);
    }
    if s.ended == 1 {
      forall f: N | f in s.runs && g.kind(f).Fork? ensures g.kind(f).active >= 1 {
        assert g.region(f) in w;
        ForkClosed(g, o, s, w, f);
      }
    }
  }

  /** Nothing is dropped when every module continues its request. */
  lemma {:induction false} NothingDropped<N(!new)>(g: Graph<N>, o: N -> Outcome, acts: seq<Action<N>>)
    requires Schedule(g, o, acts) && forall n: N :: o(n).Resumes?
    ensures Exec(g, o, acts).dropped == 0
    decreases |acts|
  {
    if acts != [] {
      NothingDropped(g, o, acts[..|acts| - 1]);
      NoDrop(g, o, Exec(g, o, acts[..|acts| - 1]), acts[|acts| - 1]);
    }
  }

  lemma NoDrop<N(!new)>(g: Graph<N>, o: N -> Outcome, s: State<N>, a: Action<N>)
    requires Enabled(g, o, s, a) && forall n: N :: o(n).Resumes?
    ensures Apply(g, o, s, a).dropped == s.dropped
  {
  }

  /** The tokens a step adds. */
  ghost function Emitted<N>(g: Graph<N>, o: N -> Outcome, s: State<N>, a: Action<N>): multiset<Token<N>>
    requires Enabled(g, o, s, a)
  {
    var r := a.token.region;
    match a.token.place
    case Run(n, last) => (
      match g.kind(n)
      case Join(_) => multiset{Token(r, Counted(n, Increment16(Joined(s, n)), last))}
      case Fork(_, active) => ArmingToken(n, 0, active)
      case Simple => multiset{Token(r, if a.async then Pending(n) else Leave(n, o(n).state))})
    case Pending(n) => if o(n).Drops? then multiset{} else multiset{Token(r, Leave(n, o(n).state))}
    case Arming(f) => multiset{Token(r, ForkTimer(f))} + ArmingToken(f, r.index + 1, g.kind(f).active)
    case ForkTimer(f) => multiset{Token(r, Leave(f, MOD_FORK0 + r.index))}
    case Leave(n, st) =>
      if n == g.end || g.next(n, st).None? then multiset{} else multiset{Token(r, Run(g.next(n, st).value, st))}
    case Counted(j, count, _) =>
      if count == g.kind(g.kind(j).fork).active
      then multiset{Token(g.region(j), JoinTimer(j, if j in s.failed then MOD_FAILED else MOD_SUCCEED))}
      else multiset{}
    case JoinTimer(j, st) => multiset{Token(r, Leave(j, st))}
  }

  lemma AddNothing<T>(m: multiset<T>)
    ensures m + multiset{} == m
  {
  }

  lemma RunTokens<N(!new)>(g: Graph<N>, o: N -> Outcome, s: State<N>, a: Action<N>)
    requires Enabled(g, o, s, a) && a.token.place.Run?
    ensures Apply(g, o, s, a).tokens == s.tokens - multiset{a.token} + Emitted(g, o, s, a)
  {
  }

  lemma LeaveTokens<N(!new)>(g: Graph<N>, o: N -> Outcome, s: State<N>, a: Action<N>)
    requires Enabled(g, o, s, a) && a.token.place.Leave?
    ensures Apply(g, o, s, a).tokens == s.tokens - multiset{a.token} + Emitted(g, o, s, a)
  {
    AddNothing(s.tokens - multiset{a.token});
  }

  lemma HandlerTokens<N(!new)>(g: Graph<N>, o: N -> Outcome, s: State<N>, a: Action<N>)
    requires Enabled(g, o, s, a) && !a.token.place.Run? && !a.token.place.Leave?
    ensures Apply(g, o, s, a).tokens == s.tokens - multiset{a.token} + Emitted(g, o, s, a)
  {
    AddNothing(s.tokens - multiset{a.token});
  }

  /** A step takes away its own token and adds what it emits. */
  lemma TokensAfter<N(!new)>(g: Graph<N>, o: N -> Outcome, s: State<N>, a: Action<N>)
    requires Enabled(g, o, s, a)
    ensures Apply(g, o, s, a).tokens == s.tokens - multiset{a.token} + Emitted(g, o, s, a)
  {
    if a.token.place.Run? {
      RunTokens(g, o, s, a);
    } else if a.token.place.Leave? {
      LeaveTokens(g, o, s, a);
    } else {
      HandlerTokens(g, o, s, a);
    }
  }

  /** The steps at which the request ends: the end module, or a state without a link. */
  ghost predicate EndsAt<N>(g: Graph<N>, p: Place<N>) {
    p.Leave? && (p.node == g.end || g.next(p.node, p.state).None?)
  }

  /** The steps at which a module of the user goes on. */
  ghost predicate AnswersAt<N>(g: Graph<N>, o: N -> Outcome, a: Action<N>) {
    var p := a.token.place;
    o(p.node).Resumes? && (p.Pending? || (p.Run? && g.kind(p.node).Simple? && !a.async))
  }

  /** A module of the user that answers or is waited for, and what a join arrival leaves: nothing else writes these. */
  lemma RunFlags<N(!new)>(g: Graph<N>, o: N -> Outcome, s: State<N>, a: Action<N>, s': State<N>)
    requires Enabled(g, o, s, a) && a.token.place.Run? && s' == Apply(g, o, s, a)
    ensures s'.ended == s.ended && s'.dropped == s.dropped && s'.runs == s.runs + multiset{a.token.place.node}
    ensures s'.exit == (s.exit || (AnswersAt(g, o, a) && o(a.token.place.node).exits))
  {
  }

  lemma LeaveFlags<N(!new)>(g: Graph<N>, o: N -> Outcome, s: State<N>, a: Action<N>, s': State<N>)
    requires Enabled(g, o, s, a) && a.token.place.Leave? && s' == Apply(g, o, s, a)
    ensures s'.dropped == s.dropped && s'.runs == s.runs
    ensures s'.ended == s.ended + (if EndsAt(g, a.token.place) then 1 else 0)
    ensures s'.exit == (s.exit || (EndsAt(g, a.token.place) && a.token.place.node != g.end))
  {
  }

  lemma HandlerFlags<N(!new)>(g: Graph<N>, o: N -> Outcome, s: State<N>, a: Action<N>, s': State<N>)
    requires Enabled(g, o, s, a) && !a.token.place.Run? && !a.token.place.Leave? && s' == Apply(g, o, s, a)
    ensures s'.ended == s.ended && s'.runs == s.runs
    ensures s'.dropped == s.dropped + (if a.token.place.Pending? && o(a.token.place.node).Drops? then 1 else 0)
    ensures s'.exit == (s.exit || (AnswersAt(g, o, a) && o(a.token.place.node).exits))
  {
  }

  /** What a step does besides moving tokens.  The exit flag is set by a module that says so and by a state without
      a link, and by nothing else; a request that reaches its end module keeps the flag as it is. */
  lemma FlagsAfter<N(!new)>(g: Graph<N>, o: N -> Outcome, s: State<N>, a: Action<N>, s': State<N>)
    requires Enabled(g, o, s, a) && s' == Apply(g, o, s, a)
    ensures var p := a.token.place;
            && s'.ended == s.ended + (if EndsAt(g, p) then 1 else 0)
            && s'.exit == (s.exit || (AnswersAt(g, o, a) && o(p.node).exits) || (EndsAt(g, p) && p.node != g.end))
            && s'.dropped == s.dropped + (if p.Pending? && o(p.node).Drops? then 1 else 0)
            && s'.runs == s.runs + (if p.Run? then multiset{p.node} else multiset{})
  {
    AddNothing(s.runs);
    if a.token.place.Run? {
      RunFlags(g, o, s, a, s');
    } else if a.token.place.Leave? {
      LeaveFlags(g, o, s, a, s');
    } else {
      HandlerFlags(g, o, s, a, s');
    }
  }

  /** The step is an arrival at the join `j`. */
  ghost predicate ArrivesAt<N>(g: Graph<N>, p: Place<N>, j: N) {
    p.Run? && p.node == j && g.kind(j).Join?
  }

  lemma ArrivalCounts<N(!new)>(g: Graph<N>, o: N -> Outcome, s: State<N>, a: Action<N>, s': State<N>)
    requires Enabled(g, o, s, a) && a.token.place.Run? && g.kind(a.token.place.node).Join? && s' == Apply(g, o, s, a)
    ensures var j := a.token.place.node;
            s'.joined == s.joined[j := if Joined(s, j) == 0xFFFF then 0 else Joined(s, j) + 1]
    ensures s'.failed == if a.token.place.last == MOD_SUCCEED then s.failed else s.failed + {a.token.place.node}
  {
  }

  lemma OthersCountNothing<N(!new)>(g: Graph<N>, o: N -> Outcome, s: State<N>, a: Action<N>, s': State<N>)
    requires Enabled(g, o, s, a) && s' == Apply(g, o, s, a)
    requires !(a.token.place.Run? && g.kind(a.token.place.node).Join?)
    ensures s'.joined == s.joined && s'.failed == s.failed
  {
  }

  /** An arrival at a join counts, in 16 bits, and leaves its mark if it did not come with success; the counts and marks
      of the other joins stay. */
  lemma ArrivalsAfter<N(!new)>(g: Graph<N>, o: N -> Outcome, s: State<N>, a: Action<N>, s': State<N>, j: N)
    requires Enabled(g, o, s, a) && s' == Apply(g, o, s, a)
    ensures var p := a.token.place;
            && Joined(s', j) == (if !ArrivesAt(g, p, j) then Joined(s, j)
                                 else if Joined(s, j) == 0xFFFF then 0 else Joined(s, j) + 1)
            && (j in s'.failed <==> j in s.failed || (ArrivesAt(g, p, j) && p.last != MOD_SUCCEED))
  {
    var p := a.token.place;
    if p.Run? && g.kind(p.node).Join? {
      ArrivalCounts(g, o, s, a, s');
    } else {
      OthersCountNothing(g, o, s, a, s');
    }
  }

  lemma OtherTokensStay<N(!new)>(g: Graph<N>, o: N -> Outcome, s: State<N>, a: Action<N>, t: Token<N>)
    requires Enabled(g, o, s, a) && t in s.tokens && t != a.token
    ensures t in Apply(g, o, s, a).tokens
  {
    var s' := Apply(g, o, s, a);
    TokensAfter(g, o, s, a);
    InSum(s.tokens, a.token, Emitted(g, o, s, a), s'.tokens, t);
  }

  lemma InSum<T>(before: multiset<T>, x: T, more: multiset<T>, after: multiset<T>, t: T)
    requires after == before - multiset{x} + more && t != x
    ensures t in after <==> t in before || t in more
  {
  }

  /** A module that will answer later is waited for. */
  lemma PendingAppears<N(!new)>(g: Graph<N>, o: N -> Outcome, s: State<N>, a: Action<N>)
    requires Enabled(g, o, s, a) && a.token.place.Run? && a.async && g.kind(a.token.place.node).Simple?
    ensures Token(a.token.region, Pending(a.token.place.node)) in Apply(g, o, s, a).tokens
  {
  }

  /** The handler of a pending module passes the module's exit on to the context. */
  lemma HandlerSetsExit<N(!new)>(g: Graph<N>, o: N -> Outcome, s: State<N>, a: Action<N>)
    requires Enabled(g, o, s, a) && a.token.place.Pending?
    ensures var out := o(a.token.place.node);
            Apply(g, o, s, a).exit == (s.exit || (out.Resumes? && out.exits))
    ensures Apply(g, o, s, a).ended == s.ended
  {
  }

  /** A thread that has counted its arrival at a join but was not the last one: it does nothing more. */
  ghost predicate Spent<N>(g: Graph<N>, t: Token<N>) {
    && t.place.Counted? && g.kind(t.place.node).Join?
    && g.kind(g.kind(t.place.node).fork).Fork?
    && t.place.count != g.kind(g.kind(t.place.node).fork).active
  }

  /** Nothing of the request is left running once it has ended. */
  lemma {:induction false} EndedMeansSpent<N(!new)>(g: Graph<N>, o: N -> Outcome, s: State<N>, w: Whereabouts<N>,
      r: Region<N>)
    requires WellNested(g) && Inv(g, o, s, w) && w[Top] == Ended && r in w
    ensures !w[r].InFork?
    ensures w[r].At? ==> Spent(g, w[r].token)
    decreases if r.Branch? then g.depth(r.fork) else 0, 1
  {
    if r.Branch? {
      var f := r.fork;
      assert BranchOk(g, w, f, r.index) && NodeOk(g, f);
      ForkClosed(g, o, s, w, f);
      ClosedBranch(g, s, w, f, r.index);
    }
  }

  lemma ClosedBranch<N(!new)>(g: Graph<N>, s: State<N>, w: Whereabouts<N>, f: N, k: nat)
    requires Shape(g, w) && JoinsOk(g, s, w)
    requires g.kind(f).Fork? && k < g.kind(f).active && Forked(w, f) && !Open(g, w, f)
    requires Region.Branch(f, k) in w
    ensures !w[Region.Branch(f, k)].InFork?
    ensures w[Region.Branch(f, k)].At? ==> Spent(g, w[Region.Branch(f, k)].token)
  {
    assert ForkInv(g, s, w, f);
    CountBounds(w, f, g.kind(f).active);
    assert ArrivedAt(w, Region.Branch(f, k));
    assert LocOk(g, Region.Branch(f, k), w[Region.Branch(f, k)]);
  }

  lemma {:induction false} ForkClosed<N(!new)>(g: Graph<N>, o: N -> Outcome, s: State<N>, w: Whereabouts<N>, f: N)
    requires WellNested(g) && Inv(g, o, s, w) && w[Top] == Ended
    requires g.kind(f).Fork? && g.region(f) in w
    ensures !Open(g, w, f)
    decreases g.depth(f), 0
  {
    var r := g.region(f);
    if r.Branch? {
      assert NodeOk(g, f);
      EndedMeansSpent(g, o, s, w, r);
    }
  }

  lemma NothingRunsAfterTheEnd<N(!new)>(g: Graph<N>, o: N -> Outcome, acts: seq<Action<N>>, s: State<N>, t: Token<N>)
    requires Reached(g, o, acts, s)
    requires s.ended == 1 && t in s.tokens
    ensures Spent(g, t)
  {
    var w := ReachedInv(g, o, acts, s);
    Located(g, s, w, t);
    EndedMeansSpent(g, o, s, w, t.region);
  }

  /** Confluence: a join leaves with the state its branches amount to when evaluated one after the other,
      in whatever order the callbacks ran. */
  lemma JoinsAreConfluent<N(!new)>(g: Graph<N>, o: N -> Outcome, acts: seq<Action<N>>, s: State<N>, t: Token<N>)
    requires WellNested(g) && Reached(g, o, acts, s) && t in s.tokens
    requires t.place.JoinTimer? || t.place.Leave?
    requires g.kind(t.place.node).Join?
    ensures var f := g.kind(t.place.node).fork;
            && g.kind(f).Fork?
            && EvalBranches(g, o, f, g.kind(f).active) == Arrives(t.place.state)
  {
    var w := ReachedInv(g, o, acts, s);
    Located(g, s, w, t);
    assert EmitsMeaning(g, o, w[t.region]);
  }

  /** With no callback left, a fork that still waits has lost a branch. */
  lemma {:induction false} WaitingForkIsLost<N(!new)>(g: Graph<N>, o: N -> Outcome, s: State<N>, w: Whereabouts<N>,
      r: Region<N>)
    requires WellNested(g) && Inv(g, o, s, w) && s.tokens == multiset{}
    requires r in w && w[r].InFork?
    ensures Val(g, o, r) == Lost
    decreases g.rank(w[r].fork)
  {
    var f := w[r].fork;
    var a := g.kind(f).active;
    assert LocOk(g, r, w[r]);
    if a == 0 {
      assert LocVal(g, o, r, w[r]) == Val(g, o, r);
      return;
    }
    assert Forked(w, f) && ForkInv(g, s, w, f);
    CountBounds(w, f, a);
    if forall k: nat | k < a :: ArrivedAt(w, Region.Branch(f, k)) {
      var k: nat :| k < a && Region.Branch(f, k) in w && IsCounted(w[Region.Branch(f, k)], a);
      NoTokenAt(g, s, w, Region.Branch(f, k));
      assert false;
    } else {
      var k: nat :| k < a && !ArrivedAt(w, Region.Branch(f, k));
      var b := Region.Branch(f, k);
      assert b in w && LocOk(g, b, w[b]);
      NoTokenAt(g, s, w, b);
      AllArmed(g, s, w, f, k);
      if w[b].InFork? {
        assert NodeOk(g, w[b].fork);
        WaitingForkIsLost(g, o, s, w, b);
      }
      assert Val(g, o, b) == Lost;
      BranchesMeaning(g, o, f, a);
    }
  }

  /** Once all callbacks are done, the request has ended exactly when its sequential meaning is to end. */
  lemma QuietMeansMeaning<N(!new)>(g: Graph<N>, o: N -> Outcome, acts: seq<Action<N>>, s: State<N>)
    requires WellNested(g) && Reached(g, o, acts, s) && s.tokens == multiset{}
    ensures s.ended == 1 <==> Val(g, o, Top) == Ends
  {
    var w := ReachedInv(g, o, acts, s);
    NoTokenAt(g, s, w, Top);
    assert LocOk(g, Top, w[Top]) && LocVal(g, o, Top, w[Top]) == Val(g, o, Top);
    if w[Top].InFork? {
      WaitingForkIsLost(g, o, s, w, Top);
    }
  }
}
