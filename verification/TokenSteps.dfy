/** Each kind of engine step keeps the token invariant. */
module TokenSteps {
  import opened ModStates
  import opened TokenEngine
  import opened TokenInvariant

  /** As far as its join is concerned, a branch looks the same. */
  ghost predicate SameForJoin<N>(w: Whereabouts<N>, w': Whereabouts<N>, b: Region<N>, a: nat) {
    && (b in w <==> b in w')
    && (b in w ==>
          || w[b] == w'[b]
          || (!HasArrived(w[b]) && !HasArrived(w'[b]))
          || (HasArrived(w[b]) && w'[b] == Arrived(ArrivalState(w[b])) && !IsCounted(w[b], a)))
  }

  /** A fork is unaffected by a change of the whereabouts that neither opens nor closes it and that its
      join does not see. */
  lemma ForkFrame<N(!new)>(g: Graph<N>, s: State<N>, w: Whereabouts<N>, s': State<N>, w': Whereabouts<N>, f: N)
    requires g.kind(f).Fork? && ForkInv(g, s, w, f)
    requires Forked(w, f) == Forked(w', f) && Open(g, w, f) == Open(g, w', f)
    requires Joined(s, g.kind(f).join) == Joined(s', g.kind(f).join)
    requires g.kind(f).join in s.failed <==> g.kind(f).join in s'.failed
    requires forall k: nat | k < g.kind(f).active :: SameForJoin(w, w', Region.Branch(f, k), g.kind(f).active)
    ensures ForkInv(g, s', w', f)
  {
    var Fork(j, a) := g.kind(f);
    if Forked(w, f) {
      assert forall k: nat | k < a :: SameForJoin(w, w', Region.Branch(f, k), a);
      assert forall k: nat | k < a :: ArrivedAt(w, Region.Branch(f, k)) == ArrivedAt(w', Region.Branch(f, k));
      CountFrame(w, w', f, a);
      assert forall k: nat | k < a :: FailureAt(w, Region.Branch(f, k)) == FailureAt(w', Region.Branch(f, k));
      assert forall k: nat | k < a && Region.Branch(f, k) in w ::
          IsCounted(w[Region.Branch(f, k)], a) == IsCounted(w'[Region.Branch(f, k)], a);
      assert TriggerOk(g, w', f, a, Joined(s', j)) by {
        if Open(g, w, f) && Joined(s, j) == a {
          var k: nat :| k < a && Region.Branch(f, k) in w && IsCounted(w[Region.Branch(f, k)], a);
          assert IsCounted(w'[Region.Branch(f, k)], a);
        }
      }
    }
  }

  /** No region moves backwards. */
  ghost predicate Onward<N>(g: Graph<N>, w: Whereabouts<N>, w': Whereabouts<N>) {
    forall r | r in w :: r in w' && Pos(g, w'[r]) <= Pos(g, w[r])
  }

  lemma RunsKept<N(!new)>(g: Graph<N>, s: State<N>, w: Whereabouts<N>, s': State<N>, w': Whereabouts<N>)
    requires RunsOk(g, s, w) && Onward(g, w, w') && s'.runs == s.runs
    ensures RunsOk(g, s', w')
  {
  }

  lemma RunsGrown<N(!new)>(g: Graph<N>, s: State<N>, w: Whereabouts<N>, s': State<N>, w': Whereabouts<N>, n: N)
    requires RunsOk(g, s, w) && Onward(g, w, w') && s'.runs == s.runs + multiset{n}
    requires g.kind(n).Join? ||
             (g.region(n) in w && Pos(g, w[g.region(n)]) > 2 * g.rank(n) >= Pos(g, w'[g.region(n)]))
    ensures RunsOk(g, s', w')
  {
    forall m: N | m in s'.runs && !g.kind(m).Join?
      ensures s'.runs[m] == 1 && g.region(m) in w' && Pos(g, w'[g.region(m)]) <= 2 * g.rank(m)
    {
      if m == n {
        assert m !in s.runs;
      } else {
        assert m in s.runs;
      }
    }
  }

  ghost function TokenOf<N>(l: Loc<N>): multiset<Token<N>> {
    if l.At? then multiset{l.token} else multiset{}
  }

  lemma TokensMoved<N(!new)>(s: State<N>, w: Whereabouts<N>, s': State<N>, t: Token<N>, l: Loc<N>)
    requires TokensOk(s, w) && t.region in w && w[t.region] == At(t)
    requires l.At? ==> l.token.region == t.region
    requires s'.tokens == s.tokens - multiset{t} + TokenOf(l)
    ensures TokensOk(s', w[t.region := l])
  {
    var w' := w[t.region := l];
    forall u: Token<N>
      ensures s'.tokens[u] == if u.region in w' && w'[u.region] == At(u) then 1 else 0
    {
      assert s.tokens[u] == if u.region in w && w[u.region] == At(u) then 1 else 0;
      assert s.tokens[t] == 1;
    }
  }

  lemma EndKept<N(!new)>(s: State<N>, w: Whereabouts<N>, s': State<N>, r: Region<N>, l: Loc<N>)
    requires Top in w && r in w && EndOk(s, w) && w[r] != Ended
    requires s'.ended == s.ended + (if l == Ended then 1 else 0)
    requires s'.dropped == s.dropped + (if l == Dropped then 1 else 0)
    requires l == Ended ==> r == Top
    ensures EndOk(s', w[r := l])
  {
    var w' := w[r := l];
    if r0 :| r0 in w' && w'[r0] == Dropped {
      if r0 != r { assert w[r0] == Dropped; }
    }
  }

  /** As far as the loop of its fork is concerned, a branch looks the same. */
  ghost predicate SameArm<N>(l: Loc<N>, l': Loc<N>) {
    l.Unarmed? == l'.Unarmed? && IsArming(l) == IsArming(l')
  }

  lemma ArmsMoved<N(!new)>(w: Whereabouts<N>, r: Region<N>, l: Loc<N>)
    requires r in w && SameArm(w[r], l) && ArmsOk(w)
    ensures ArmsOk(w[r := l])
  {
    var w' := w[r := l];
    forall f: N, k: nat | Region.Branch(f, k) in w' ensures ArmOk(w', f, k) {
      assert ArmOk(w, f, k);
    }
  }

  lemma BranchesMoved<N(!new)>(g: Graph<N>, w: Whereabouts<N>, r: Region<N>, l: Loc<N>, w': Whereabouts<N>)
    requires BranchesOk(g, w) && r in w && SameArm(w[r], l) && !l.InFork? && Pos(g, l) <= Pos(g, w[r])
    requires w' == w[r := l]
    ensures BranchesOk(g, w')
  {
    ArmsMoved(w, r, l);
    forall f: N, k: nat | Region.Branch(f, k) in w' ensures BranchOk(g, w', f, k) {
      assert BranchOk(g, w, f, k);
    }
  }

  lemma JoinsMoved<N(!new)>(g: Graph<N>, s: State<N>, w: Whereabouts<N>, s': State<N>, r: Region<N>, l: Loc<N>)
    requires JoinsOk(g, s, w)
    requires r in w && !w[r].InFork? && !HasArrived(w[r])
    requires !HasArrived(l) && !l.InFork?
    requires s'.joined == s.joined && s'.failed == s.failed
    ensures JoinsOk(g, s', w[r := l])
  {
    var w' := w[r := l];
    forall f: N | g.kind(f).Fork? ensures ForkInv(g, s', w', f) {
      assert ForkInv(g, s, w, f);
      ForkFrame(g, s, w, s', w', f);
    }
  }

  lemma ValuesMoved<N(!new)>(g: Graph<N>, o: N -> Outcome, w: Whereabouts<N>, r: Region<N>, l: Loc<N>)
    requires WellNested(g) && Shape(g, w) && ValuesOk(g, o, w)
    requires r in w && LocOk(g, r, l) && LocVal(g, o, r, l) == LocVal(g, o, r, w[r]) && EmitsMeaning(g, o, l)
    ensures Shape(g, w[r := l]) && ValuesOk(g, o, w[r := l])
  {
    var w' := w[r := l];
    assert Shape(g, w');
    forall q | q in w' ensures LocVal(g, o, q, w'[q]) == Val(g, o, q) {
      assert q in w && LocVal(g, o, q, w[q]) == Val(g, o, q);
    }
  }

  ghost predicate RunsStep<N>(g: Graph<N>, s: State<N>, t: Token<N>, l: Loc<N>, s': State<N>) {
    if t.place.Run? then
      && s'.runs == s.runs + multiset{t.place.node}
      && !g.kind(t.place.node).Fork?
      && (g.kind(t.place.node).Join? || Pos(g, l) <= 2 * g.rank(t.place.node))
    else s'.runs == s.runs
  }

  lemma RunsMoved<N(!new)>(g: Graph<N>, s: State<N>, w: Whereabouts<N>, t: Token<N>, l: Loc<N>, s': State<N>)
    requires RunsOk(g, s, w)
    requires t.region in w && w[t.region] == At(t) && LocOk(g, t.region, At(t))
    requires Pos(g, l) <= Pos(g, At(t)) && RunsStep(g, s, t, l, s')
    ensures RunsOk(g, s', w[t.region := l])
  {
    var w' := w[t.region := l];
    assert Onward(g, w, w');
    if t.place.Run? {
      RunsGrown(g, s, w, s', w', t.place.node);
    } else {
      RunsKept(g, s, w, s', w');
    }
  }

  lemma ForksMoved<N(!new)>(g: Graph<N>, s: State<N>, w: Whereabouts<N>, t: Token<N>, l: Loc<N>, s': State<N>)
    requires ForksOk(g, s, w) && t.region in w && w[t.region] == At(t) && !l.InFork? && RunsStep(g, s, t, l, s')
    ensures ForksOk(g, s', w[t.region := l])
  {
    var w' := w[t.region := l];
    forall f: N | f in s'.runs && g.kind(f).Fork? && g.kind(f).active == 0 ensures Open(g, w', f) {
      assert f in s.runs && Open(g, w, f);
    }
  }

  /** The part of the invariant that is not about forks and joins. */
  ghost predicate Local<N(!new)>(g: Graph<N>, o: N -> Outcome, s: State<N>, w: Whereabouts<N>)
    requires WellNested(g)
  {
    && Shape(g, w)
    && TokensOk(s, w)
    && ValuesOk(g, o, w)
    && EndOk(s, w)
    && RunsOk(g, s, w)
    && ForksOk(g, s, w)
  }

  /** The share of one region moves from `t` to `l`. */
  ghost predicate Moves<N(!new)>(g: Graph<N>, o: N -> Outcome, s: State<N>, w: Whereabouts<N>, t: Token<N>,
      l: Loc<N>, s': State<N>)
    requires WellNested(g)
  {
    && t.region in w && w[t.region] == At(t)
    && LocOk(g, t.region, At(t)) && LocOk(g, t.region, l)
    && !l.InFork?
    && Pos(g, l) <= Pos(g, At(t))
    && LocVal(g, o, t.region, l) == LocVal(g, o, t.region, At(t))
    && EmitsMeaning(g, o, l)
    && s'.tokens == s.tokens - multiset{t} + TokenOf(l)
    && s'.ended == s.ended + (if l == Ended then 1 else 0)
    && s'.dropped == s.dropped + (if l == Dropped then 1 else 0)
    && RunsStep(g, s, t, l, s')
  }

  lemma LocalMoved<N(!new)>(g: Graph<N>, o: N -> Outcome, s: State<N>, w: Whereabouts<N>, t: Token<N>, l: Loc<N>,
      s': State<N>, w': Whereabouts<N>)
    requires WellNested(g) && Local(g, o, s, w) && Moves(g, o, s, w, t, l, s')
    requires w' == w[t.region := l]
    ensures Local(g, o, s', w')
  {
    TokensMoved(s, w, s', t, l);
    EndKept(s, w, s', t.region, l);
    RunsMoved(g, s, w, t, l, s');
    ForksMoved(g, s, w, t, l, s');
    ValuesMoved(g, o, w, t.region, l);
  }

  /** A move outside forks and joins. */
  lemma Move<N(!new)>(g: Graph<N>, o: N -> Outcome, s: State<N>, w: Whereabouts<N>, t: Token<N>, l: Loc<N>,
      s': State<N>, w': Whereabouts<N>)
    requires WellNested(g) && Inv(g, o, s, w) && Moves(g, o, s, w, t, l, s')
    requires !HasArrived(At(t)) && !HasArrived(l) && SameArm(At(t), l)
    requires s'.joined == s.joined && s'.failed == s.failed
    requires w' == w[t.region := l]
    ensures Inv(g, o, s', w')
  {
    LocalMoved(g, o, s, w, t, l, s', w');
    BranchesMoved(g, w, t.region, l, w');
    JoinsMoved(g, s, w, s', t.region, l);
  }

  // ---------------------------------------------------------------------------------------------
  // Forking
  // ---------------------------------------------------------------------------------------------

  ghost function Branches<N(!new)>(f: N, a: nat): set<Region<N>> {
    set k: nat | k < a :: Region.Branch(f, k)
  }

  ghost function AfterFork<N(!new)>(w: Whereabouts<N>, r: Region<N>, f: N, a: nat): Whereabouts<N> {
    w[r := InFork(f)] + map b | b in Branches(f, a) :: NewBranch(f, b)
  }

  /** The first branch is about to be armed, the others wait for the loop to come to them. */
  ghost function NewBranch<N>(f: N, b: Region<N>): Loc<N> {
    if b == Region.Branch(f, 0) then At(Token(b, Arming(f))) else Unarmed(f)
  }

  lemma AfterForkAt<N(!new)>(w: Whereabouts<N>, r: Region<N>, f: N, a: nat, q: Region<N>)
    requires r !in Branches(f, a)
    ensures q in AfterFork(w, r, f, a) <==> q in w || q == r || q in Branches(f, a)
    ensures q in Branches(f, a) ==> q.Branch? && AfterFork(w, r, f, a)[q] == NewBranch(f, q)
    ensures q == r ==> AfterFork(w, r, f, a)[q] == InFork(f)
    ensures q in w && q != r && q !in Branches(f, a) ==> AfterFork(w, r, f, a)[q] == w[q]
  {
  }

  lemma ForkedTokens<N(!new)>(g: Graph<N>, s: State<N>, w: Whereabouts<N>, t: Token<N>, f: N, a: nat, s': State<N>)
    requires TokensOk(s, w) && t.region in w && w[t.region] == At(t)
    requires t.region !in Branches(f, a) && forall b | b in Branches(f, a) :: b !in w
    requires s'.tokens == s.tokens - multiset{t} + ArmingToken(f, 0, a)
    ensures TokensOk(s', AfterFork(w, t.region, f, a))
  {
    var w' := AfterFork(w, t.region, f, a);
    forall u: Token<N>
      ensures s'.tokens[u] == if u.region in w' && w'[u.region] == At(u) then 1 else 0
    {
      AfterForkAt(w, t.region, f, a, u.region);
      assert s.tokens[u] == if u.region in w && w[u.region] == At(u) then 1 else 0;
      assert s.tokens[t] == 1;
      assert a > 0 ==> Region.Branch(f, 0) in Branches(f, a);
      assert ArmingToken(f, 0, a)[u] == if a > 0 && u == Token(Region.Branch(f, 0), Arming(f)) then 1 else 0;
    }
  }

  /** The facts a fork step starts from: the fork's own branches are new. */
  ghost predicate ForkPre<N>(g: Graph<N>, w: Whereabouts<N>, t: Token<N>, f: N, a: nat) {
    && t.region in w && w[t.region] == At(t)
    && t.place.Run? && t.place.node == f && g.region(f) == t.region
    && g.kind(f).Fork? && g.kind(f).active == a
    && ForkOk(g, f)
    && (t.region.Branch? ==> t.region.fork != f)
  }

  lemma ForkIsNew<N(!new)>(g: Graph<N>, w: Whereabouts<N>, t: Token<N>, f: N, a: nat)
    requires ForkPre(g, w, t, f, a) && BranchesOk(g, w)
    ensures forall k: nat :: Region.Branch(f, k) !in w
    ensures t.region !in Branches(f, a)
  {
    forall k: nat ensures Region.Branch(f, k) !in w {
      assert Region.Branch(f, k) in w ==> BranchOk(g, w, f, k);
    }
  }

  lemma ForkedBranches<N(!new)>(g: Graph<N>, w: Whereabouts<N>, t: Token<N>, f: N, a: nat)
    requires ForkPre(g, w, t, f, a) && BranchesOk(g, w)
    ensures BranchesOk(g, AfterFork(w, t.region, f, a)) && Onward(g, w, AfterFork(w, t.region, f, a))
  {
    var w' := AfterFork(w, t.region, f, a);
    ForkIsNew(g, w, t, f, a);
    forall q: Region<N> ensures q in w' <==> q in w || q in Branches(f, a) { AfterForkAt(w, t.region, f, a, q); }
    forall q: Region<N> | q in w ensures Pos(g, w'[q]) <= Pos(g, w[q]) { AfterForkAt(w, t.region, f, a, q); }
    assert a > 0 ==> Region.Branch(f, 0) in Branches(f, a);
    forall h: N, k: nat | Region.Branch(h, k) in w' ensures BranchOk(g, w', h, k) {
      if h == f {
        AfterForkAt(w, t.region, f, a, t.region);
      } else {
        assert BranchOk(g, w, h, k);
      }
    }
    forall r | r in w' && w'[r].InFork? && g.kind(w'[r].fork).Fork?
      ensures g.kind(w'[r].fork).active == 0 || Forked(w', w'[r].fork)
    {
      AfterForkAt(w, t.region, f, a, r);
    }
    ForkedArms(g, w, t, f, a);
  }

  lemma ForkedArms<N(!new)>(g: Graph<N>, w: Whereabouts<N>, t: Token<N>, f: N, a: nat)
    requires ForkPre(g, w, t, f, a) && BranchesOk(g, w)
    ensures ArmsOk(AfterFork(w, t.region, f, a))
  {
    var w' := AfterFork(w, t.region, f, a);
    ForkIsNew(g, w, t, f, a);
    forall h: N, k: nat | Region.Branch(h, k) in w' ensures ArmOk(w', h, k) {
      var b := Region.Branch(h, k);
      AfterForkAt(w, t.region, f, a, b);
      if h == f {
        assert b in Branches(f, a);
        if k > 0 {
          assert Region.Branch(f, k - 1) in Branches(f, a);
          AfterForkAt(w, t.region, f, a, Region.Branch(f, k - 1));
        }
      } else {
        assert ArmOk(w, h, k);
        if k > 0 {
          AfterForkAt(w, t.region, f, a, Region.Branch(h, k - 1));
        }
      }
    }
  }

  lemma ForkedJoins<N(!new)>(g: Graph<N>, s: State<N>, w: Whereabouts<N>, t: Token<N>, f: N, a: nat, s': State<N>)
    requires ForkPre(g, w, t, f, a) && BranchesOk(g, w) && JoinsOk(g, s, w)
    requires s'.joined == s.joined && s'.failed == s.failed
    ensures JoinsOk(g, s', AfterFork(w, t.region, f, a))
  {
    var w' := AfterFork(w, t.region, f, a);
    ForkIsNew(g, w, t, f, a);
    forall h: N | g.kind(h).Fork? ensures ForkInv(g, s', w', h) {
      assert ForkInv(g, s, w, h);
      forall q: Region<N> ensures q in w' <==> q in w || q in Branches(f, a) { AfterForkAt(w, t.region, f, a, q); }
      AfterForkAt(w, t.region, f, a, g.region(h));
      if h == f {
        forall k: nat | k < a ensures !ArrivedAt(w', Region.Branch(f, k)) {
          assert Region.Branch(f, k) in Branches(f, a);
          AfterForkAt(w, t.region, f, a, Region.Branch(f, k));
        }
        NothingArrived(w', f, a);
      } else {
        forall k: nat | k < g.kind(h).active ensures SameForJoin(w, w', Region.Branch(h, k), g.kind(h).active) {
          AfterForkAt(w, t.region, f, a, Region.Branch(h, k));
        }
        ForkFrame(g, s, w, s', w', h);
      }
    }
  }

  lemma NothingArrived<N>(w: Whereabouts<N>, f: N, a: nat)
    requires forall k: nat | k < a :: !ArrivedAt(w, Region.Branch(f, k))
    ensures CountArrived(w, f, a) == 0
  {
  }

  lemma ForkedValue<N(!new)>(g: Graph<N>, o: N -> Outcome, w: Whereabouts<N>, t: Token<N>, f: N, a: nat, q: Region<N>)
    requires WellNested(g) && Shape(g, w) && ValuesOk(g, o, w) && ForkPre(g, w, t, f, a) && t.region !in Branches(f, a)
    requires q in AfterFork(w, t.region, f, a)
    ensures var l := AfterFork(w, t.region, f, a)[q];
            LocOk(g, q, l) && LocVal(g, o, q, l) == Val(g, o, q) && EmitsMeaning(g, o, l)
  {
    AfterForkAt(w, t.region, f, a, q);
    if q !in Branches(f, a) {
      assert LocOk(g, q, w[q]) && LocVal(g, o, q, w[q]) == Val(g, o, q) && EmitsMeaning(g, o, w[q]);
    }
  }

  lemma ForkedValues<N(!new)>(g: Graph<N>, o: N -> Outcome, w: Whereabouts<N>, t: Token<N>, f: N, a: nat,
      w': Whereabouts<N>)
    requires WellNested(g) && Shape(g, w) && ValuesOk(g, o, w) && BranchesOk(g, w) && ForkPre(g, w, t, f, a)
    requires w' == AfterFork(w, t.region, f, a)
    ensures Shape(g, w') && ValuesOk(g, o, w')
  {
    ForkIsNew(g, w, t, f, a);
    AfterForkAt(w, t.region, f, a, Top);
    forall q | q in w' ensures LocOk(g, q, w'[q]) && LocVal(g, o, q, w'[q]) == Val(g, o, q)
        && EmitsMeaning(g, o, w'[q]) {
      ForkedValue(g, o, w, t, f, a, q);
    }
  }

  lemma ForkStep<N(!new)>(g: Graph<N>, o: N -> Outcome, s: State<N>, w: Whereabouts<N>, t: Token<N>, f: N, a: nat,
      s': State<N>, w': Whereabouts<N>)
    requires WellNested(g) && Inv(g, o, s, w) && ForkPre(g, w, t, f, a)
    requires s' == s.(tokens := s.tokens - multiset{t} + ArmingToken(f, 0, a), runs := s.runs + multiset{f})
    requires w' == AfterFork(w, t.region, f, a)
    ensures Inv(g, o, s', w')
  {
    ForkIsNew(g, w, t, f, a);
    ForkedValues(g, o, w, t, f, a, w');
    ForkedTokens(g, s, w, t, f, a, s');
    ForkedBranches(g, w, t, f, a);
    ForkedJoins(g, s, w, t, f, a, s');
    ForkedEnd(g, s, w, t, f, a, s');
    AfterForkAt(w, t.region, f, a, t.region);
    RunsGrown(g, s, w, s', w', f);
    ForkedForks(g, s, w, t, f, a, s');
  }

  lemma ForkedForks<N(!new)>(g: Graph<N>, s: State<N>, w: Whereabouts<N>, t: Token<N>, f: N, a: nat, s': State<N>)
    requires ForkPre(g, w, t, f, a) && BranchesOk(g, w) && ForksOk(g, s, w) && s'.runs == s.runs + multiset{f}
    ensures ForksOk(g, s', AfterFork(w, t.region, f, a))
  {
    var w' := AfterFork(w, t.region, f, a);
    ForkIsNew(g, w, t, f, a);
    AfterForkAt(w, t.region, f, a, t.region);
    forall r | r in w' && w'[r].InFork? ensures w'[r].fork in s'.runs {
      AfterForkAt(w, t.region, f, a, r);
    }
    forall h: N | h in s'.runs && g.kind(h).Fork? && g.kind(h).active == 0 ensures Open(g, w', h) {
      AfterForkAt(w, t.region, f, a, g.region(h));
      if h != f {
        assert h in s.runs && Open(g, w, h);
      }
    }
  }

  lemma ForkedEnd<N(!new)>(g: Graph<N>, s: State<N>, w: Whereabouts<N>, t: Token<N>, f: N, a: nat, s': State<N>)
    requires Top in w && EndOk(s, w) && t.region in w && w[t.region] == At(t) && t.region !in Branches(f, a)
    requires s'.ended == s.ended && s'.dropped == s.dropped
    ensures Top in AfterFork(w, t.region, f, a) && EndOk(s', AfterFork(w, t.region, f, a))
  {
    var w' := AfterFork(w, t.region, f, a);
    AfterForkAt(w, t.region, f, a, Top);
    if r :| r in w' && w'[r] == Dropped {
      AfterForkAt(w, t.region, f, a, r);
      assert w[r] == Dropped;
    }
  }

  // ---------------------------------------------------------------------------------------------
  // Arming a timer
  // ---------------------------------------------------------------------------------------------

  ghost predicate ArmPre<N>(g: Graph<N>, w: Whereabouts<N>, t: Token<N>, f: N, k: nat) {
    && t == Token(Region.Branch(f, k), Arming(f))
    && t.region in w && w[t.region] == At(t)
    && g.kind(f).Fork? && k < g.kind(f).active < UINT16_MODULUS
  }

  ghost function ArmedAt<N>(w: Whereabouts<N>, f: N, k: nat): Whereabouts<N> {
    w[Region.Branch(f, k) := At(Token(Region.Branch(f, k), ForkTimer(f)))]
  }

  ghost function AfterArming<N>(w: Whereabouts<N>, f: N, k: nat, a: nat): Whereabouts<N> {
    if k + 1 < a then ArmedAt(w, f, k)[Region.Branch(f, k + 1) := At(Token(Region.Branch(f, k + 1), Arming(f)))]
    else ArmedAt(w, f, k)
  }

  /** The next branch of a fork in its loop is not armed yet. */
  lemma NextIsUnarmed<N(!new)>(g: Graph<N>, w: Whereabouts<N>, t: Token<N>, f: N, k: nat)
    requires Shape(g, w) && BranchesOk(g, w) && ArmPre(g, w, t, f, k) && k + 1 < g.kind(f).active
    ensures Region.Branch(f, k + 1) in w && w[Region.Branch(f, k + 1)] == Unarmed(f)
  {
    assert BranchOk(g, w, f, k);
    var b := Region.Branch(f, k + 1);
    assert b in w && ArmOk(w, f, k + 1) && LocOk(g, b, w[b]);
  }

  lemma ArmedArm<N(!new)>(w: Whereabouts<N>, f: N, k: nat, a: nat, w': Whereabouts<N>, h: N, i: nat)
    requires Region.Branch(f, k) in w && IsArming(w[Region.Branch(f, k)]) && ArmOk(w, f, k)
    requires k + 1 < a ==> Region.Branch(f, k + 1) in w && w[Region.Branch(f, k + 1)].Unarmed?
    requires Region.Branch(h, i) in w && ArmOk(w, h, i) && (h == f ==> i < a) && w' == AfterArming(w, f, k, a)
    ensures ArmOk(w', h, i)
  {
  }

  lemma ArmedArms<N(!new)>(g: Graph<N>, w: Whereabouts<N>, t: Token<N>, f: N, k: nat, w': Whereabouts<N>)
    requires Shape(g, w) && BranchesOk(g, w) && ArmPre(g, w, t, f, k) && w' == AfterArming(w, f, k, g.kind(f).active)
    ensures ArmsOk(w')
  {
    if k + 1 < g.kind(f).active {
      NextIsUnarmed(g, w, t, f, k);
    }
    assert ArmOk(w, f, k);
    assert forall q :: q in w' <==> q in w;
    forall h: N, i: nat | Region.Branch(h, i) in w' ensures ArmOk(w', h, i) {
      assert ArmOk(w, h, i) && BranchOk(g, w, h, i);
      ArmedArm(w, f, k, g.kind(f).active, w', h, i);
    }
  }

  lemma ArmedBranches<N(!new)>(g: Graph<N>, w: Whereabouts<N>, t: Token<N>, f: N, k: nat, w': Whereabouts<N>)
    requires Shape(g, w) && BranchesOk(g, w) && ArmPre(g, w, t, f, k) && w' == AfterArming(w, f, k, g.kind(f).active)
    ensures BranchesOk(g, w')
  {
    if k + 1 < g.kind(f).active {
      NextIsUnarmed(g, w, t, f, k);
    }
    ArmedArms(g, w, t, f, k, w');
    forall h: N, i: nat | Region.Branch(h, i) in w' ensures BranchOk(g, w', h, i) {
      assert BranchOk(g, w, h, i);
    }
  }

  lemma ArmedJoins<N(!new)>(g: Graph<N>, s: State<N>, w: Whereabouts<N>, t: Token<N>, f: N, k: nat, s': State<N>,
      w': Whereabouts<N>)
    requires Shape(g, w) && BranchesOk(g, w) && JoinsOk(g, s, w) && ArmPre(g, w, t, f, k)
    requires s'.joined == s.joined && s'.failed == s.failed && w' == AfterArming(w, f, k, g.kind(f).active)
    ensures JoinsOk(g, s', w')
  {
    var b, next := Region.Branch(f, k), Region.Branch(f, k + 1);
    JoinsMoved(g, s, w, s', b, At(Token(b, ForkTimer(f))));
    if k + 1 < g.kind(f).active {
      NextIsUnarmed(g, w, t, f, k);
      JoinsMoved(g, s', ArmedAt(w, f, k), s', next, At(Token(next, Arming(f))));
    }
  }

  /** The branch `k` is armed. */
  lemma ArmedLocal<N(!new)>(g: Graph<N>, o: N -> Outcome, s: State<N>, w: Whereabouts<N>, t: Token<N>, f: N, k: nat,
      s': State<N>)
    requires WellNested(g) && Local(g, o, s, w) && ArmPre(g, w, t, f, k)
    requires s'.tokens == s.tokens - multiset{t} + multiset{Token(t.region, ForkTimer(f))}
    requires s'.ended == s.ended && s'.dropped == s.dropped && s'.runs == s.runs
    ensures Local(g, o, s', ArmedAt(w, f, k))
  {
    var l := At(Token(t.region, ForkTimer(f)));
    assert LocOk(g, t.region, At(t)) && LocOk(g, t.region, l);
    assert LocVal(g, o, t.region, l) == LocVal(g, o, t.region, At(t));
    LocalMoved(g, o, s, w, t, l, s', ArmedAt(w, f, k));
  }

  /** The loop comes to the branch `k`. */
  lemma LocalWoken<N(!new)>(g: Graph<N>, o: N -> Outcome, s: State<N>, w: Whereabouts<N>, f: N, k: nat, s': State<N>,
      w': Whereabouts<N>)
    requires WellNested(g) && Local(g, o, s, w) && Region.Branch(f, k) in w && w[Region.Branch(f, k)] == Unarmed(f)
    requires s'.tokens == s.tokens + multiset{Token(Region.Branch(f, k), Arming(f))}
    requires s'.ended == s.ended && s'.dropped == s.dropped && s'.runs == s.runs
    requires w' == w[Region.Branch(f, k) := At(Token(Region.Branch(f, k), Arming(f)))]
    ensures Local(g, o, s', w')
  {
    var r := Region.Branch(f, k);
    var l := At(Token(r, Arming(f)));
    assert LocOk(g, r, w[r]);
    ValuesMoved(g, o, w, r, l);
    EndKept(s, w, s', r, l);
    assert Onward(g, w, w');
    RunsKept(g, s, w, s', w');
    ForksWoken(g, s, w, r, l, s', w');
    TokensReturned(s, w, r, l, s', w');
  }

  lemma ForksWoken<N(!new)>(g: Graph<N>, s: State<N>, w: Whereabouts<N>, r: Region<N>, l: Loc<N>, s': State<N>,
      w': Whereabouts<N>)
    requires ForksOk(g, s, w) && r in w && !w[r].InFork? && !l.InFork? && s'.runs == s.runs && w' == w[r := l]
    ensures ForksOk(g, s', w')
  {
    forall h: N | h in s'.runs && g.kind(h).Fork? && g.kind(h).active == 0 ensures Open(g, w', h) {
      assert h in s.runs && Open(g, w, h);
    }
  }

  ghost predicate ArmEffect<N>(g: Graph<N>, s: State<N>, t: Token<N>, f: N, k: nat, s': State<N>)
    requires g.kind(f).Fork?
  {
    && s'.tokens == s.tokens - multiset{t} + multiset{Token(t.region, ForkTimer(f))}
         + ArmingToken(f, k + 1, g.kind(f).active)
    && s'.joined == s.joined && s'.failed == s.failed
    && s'.ended == s.ended && s'.dropped == s.dropped && s'.runs == s.runs
  }

  lemma ArmLast<N(!new)>(g: Graph<N>, o: N -> Outcome, s: State<N>, w: Whereabouts<N>, t: Token<N>, f: N, k: nat,
      s': State<N>, w': Whereabouts<N>)
    requires WellNested(g) && Local(g, o, s, w) && ArmPre(g, w, t, f, k) && ArmEffect(g, s, t, f, k, s')
    requires k + 1 >= g.kind(f).active && w' == ArmedAt(w, f, k)
    ensures Local(g, o, s', w')
  {
    assert s'.tokens == s.tokens - multiset{t} + multiset{Token(t.region, ForkTimer(f))};
    ArmedLocal(g, o, s, w, t, f, k, s');
  }

  lemma ArmNext<N(!new)>(g: Graph<N>, o: N -> Outcome, s: State<N>, w: Whereabouts<N>, t: Token<N>, f: N, k: nat,
      mid: State<N>, v: Whereabouts<N>, s': State<N>, w': Whereabouts<N>)
    requires WellNested(g) && Local(g, o, s, w) && BranchesOk(g, w) && ArmPre(g, w, t, f, k)
    requires ArmEffect(g, s, t, f, k, s') && k + 1 < g.kind(f).active
    requires mid == s.(tokens := s.tokens - multiset{t} + multiset{Token(t.region, ForkTimer(f))})
    requires v == ArmedAt(w, f, k) && w' == AfterArming(w, f, k, g.kind(f).active)
    ensures Local(g, o, s', w')
  {
    ArmedLocal(g, o, s, w, t, f, k, mid);
    NextIsUnarmed(g, w, t, f, k);
    LocalWoken(g, o, mid, v, f, k + 1, s', w');
  }

  lemma ArmStepLocal<N(!new)>(g: Graph<N>, o: N -> Outcome, s: State<N>, w: Whereabouts<N>, t: Token<N>, f: N, k: nat,
      s': State<N>, w': Whereabouts<N>)
    requires WellNested(g) && Local(g, o, s, w) && BranchesOk(g, w) && ArmPre(g, w, t, f, k)
    requires ArmEffect(g, s, t, f, k, s') && w' == AfterArming(w, f, k, g.kind(f).active)
    ensures Local(g, o, s', w')
  {
    if k + 1 < g.kind(f).active {
      var mid := s.(tokens := s.tokens - multiset{t} + multiset{Token(t.region, ForkTimer(f))});
      ArmNext(g, o, s, w, t, f, k, mid, ArmedAt(w, f, k), s', w');
    } else {
      ArmLast(g, o, s, w, t, f, k, s', w');
    }
  }

  lemma ArmStep<N(!new)>(g: Graph<N>, o: N -> Outcome, s: State<N>, w: Whereabouts<N>, t: Token<N>, f: N, k: nat,
      s': State<N>, w': Whereabouts<N>)
    requires WellNested(g) && Inv(g, o, s, w) && ArmPre(g, w, t, f, k)
    requires ArmEffect(g, s, t, f, k, s') && w' == AfterArming(w, f, k, g.kind(f).active)
    ensures Inv(g, o, s', w')
  {
    ArmStepLocal(g, o, s, w, t, f, k, s', w');
    ArmedBranches(g, w, t, f, k, w');
    ArmedJoins(g, s, w, t, f, k, s', w');
  }

  // ---------------------------------------------------------------------------------------------
  // Joining
  // ---------------------------------------------------------------------------------------------

  /** An arrival is counted: the locked section of `JoinModule::run`. */
  ghost predicate ArrivePre<N>(g: Graph<N>, w: Whereabouts<N>, t: Token<N>, j: N) {
    && t.region in w && w[t.region] == At(t)
    && t.place.Run? && t.place.node == j
    && g.kind(j).Join? && JoinOk(g, j)
    && t.region.Branch? && t.region.fork == g.kind(j).fork
    && ForkOk(g, t.region.fork)
  }

  ghost function AfterArrival<N>(w: Whereabouts<N>, t: Token<N>, count: nat): Whereabouts<N>
    requires t.place.Run?
  {
    w[t.region := At(Token(t.region, Counted(t.place.node, count, t.place.last)))]
  }

  ghost predicate ArriveStep<N>(s: State<N>, t: Token<N>, count: nat, s': State<N>)
    requires t.place.Run?
  {
    var j := t.place.node;
    && s'.joined == s.joined[j := count]
    && s'.failed == (if t.place.last != MOD_SUCCEED then s.failed + {j} else s.failed)
  }

  ghost predicate ArrivalEffect<N(!new)>(s: State<N>, t: Token<N>, count: nat, s': State<N>)
    requires t.place.Run?
  {
    && ArriveStep(s, t, count, s')
    && s'.tokens == s.tokens - multiset{t} + multiset{Token(t.region, Counted(t.place.node, count, t.place.last))}
    && s'.ended == s.ended && s'.dropped == s.dropped && s'.runs == s.runs + multiset{t.place.node}
  }

  /** The counter cannot wrap around, and the fork is still open. */
  lemma ArrivalCount<N(!new)>(g: Graph<N>, s: State<N>, w: Whereabouts<N>, t: Token<N>, j: N)
    requires ArrivePre(g, w, t, j) && BranchesOk(g, w) && JoinsOk(g, s, w)
    ensures Forked(w, g.kind(j).fork) && Open(g, w, g.kind(j).fork)
    ensures t.region.index < g.kind(g.kind(j).fork).active
    ensures Joined(s, j) < g.kind(g.kind(j).fork).active
    ensures Increment16(Joined(s, j)) == Joined(s, j) + 1
  {
    var f := g.kind(j).fork;
    var a := g.kind(f).active;
    assert BranchOk(g, w, f, t.region.index);
    assert ForkInv(g, s, w, f);
    CountBounds(w, f, a);
    assert !ArrivedAt(w, Region.Branch(f, t.region.index));
  }

  lemma ArrivalFlag<N(!new)>(s: State<N>, w: Whereabouts<N>, t: Token<N>, f: N, k: nat, j: N, a: nat, count: nat,
      s': State<N>, w': Whereabouts<N>)
    requires FlagOk(s, w, f, j, a) && k < a && t.region == Region.Branch(f, k) && t.place.Run? && t.place.node == j
    requires t.region in w && w[t.region] == At(t) && w' == AfterArrival(w, t, count) && ArriveStep(s, t, count, s')
    ensures FlagOk(s', w', f, j, a)
  {
    forall i: nat | i < a && i != k ensures FailureAt(w, Region.Branch(f, i)) == FailureAt(w', Region.Branch(f, i)) {
    }
    assert FailureAt(w', Region.Branch(f, k)) == (t.place.last != MOD_SUCCEED);
    assert !FailureAt(w, Region.Branch(f, k));
  }

  lemma ArrivalAtJoin<N(!new)>(g: Graph<N>, s: State<N>, w: Whereabouts<N>, t: Token<N>, j: N, s': State<N>)
    requires ArrivePre(g, w, t, j) && BranchesOk(g, w) && JoinsOk(g, s, w)
    requires ArriveStep(s, t, Joined(s, j) + 1, s')
    ensures ForkInv(g, s', AfterArrival(w, t, Joined(s, j) + 1), g.kind(j).fork)
  {
    var f := g.kind(j).fork;
    var a := g.kind(f).active;
    var k := t.region.index;
    var b := Region.Branch(f, k);
    var count := Joined(s, j) + 1;
    var w' := AfterArrival(w, t, count);
    ArrivalCount(g, s, w, t, j);
    assert ForkInv(g, s, w, f);
    CountArrival(w, f, a, k, w'[b]);
    assert Joined(s', j) == count;
    assert Open(g, w', f);
    assert IsCounted(w'[b], count);
    ArrivalFlag(s, w, t, f, k, j, a, count, s', w');
    forall i: nat | i < a && i != k && Region.Branch(f, i) in w ensures !IsCounted(w'[Region.Branch(f, i)], a) {
      assert w'[Region.Branch(f, i)] == w[Region.Branch(f, i)];
    }
  }

  lemma ArrivalElsewhere<N(!new)>(g: Graph<N>, s: State<N>, w: Whereabouts<N>, t: Token<N>, j: N, s': State<N>, h: N)
    requires ArrivePre(g, w, t, j) && JoinsOk(g, s, w)
    requires ArriveStep(s, t, Joined(s, j) + 1, s')
    requires h != g.kind(j).fork && g.kind(h).Fork? && ForkOk(g, h)
    ensures ForkInv(g, s', AfterArrival(w, t, Joined(s, j) + 1), h)
  {
    assert ForkInv(g, s, w, h);
    assert g.kind(h).join != j;
    ForkFrame(g, s, w, s', AfterArrival(w, t, Joined(s, j) + 1), h);
  }

  lemma ArrivalJoins<N(!new)>(g: Graph<N>, s: State<N>, w: Whereabouts<N>, t: Token<N>, j: N, count: nat,
      s': State<N>, w': Whereabouts<N>)
    requires WellNested(g) && ArrivePre(g, w, t, j) && BranchesOk(g, w) && JoinsOk(g, s, w)
    requires count == Joined(s, j) + 1 && ArriveStep(s, t, count, s') && w' == AfterArrival(w, t, count)
    ensures JoinsOk(g, s', w')
  {
    forall h: N | g.kind(h).Fork? ensures ForkInv(g, s', w', h) {
      if h == g.kind(j).fork {
        ArrivalAtJoin(g, s, w, t, j, s');
      } else {
        assert NodeOk(g, h);
        ArrivalElsewhere(g, s, w, t, j, s', h);
      }
    }
  }

  lemma ArrivalLocal<N(!new)>(g: Graph<N>, o: N -> Outcome, s: State<N>, w: Whereabouts<N>, t: Token<N>, j: N,
      count: nat, s': State<N>, w': Whereabouts<N>)
    requires WellNested(g) && Local(g, o, s, w) && ArrivePre(g, w, t, j)
    requires s'.tokens == s.tokens - multiset{t} + multiset{Token(t.region, Counted(j, count, t.place.last))}
    requires s'.ended == s.ended && s'.dropped == s.dropped && s'.runs == s.runs + multiset{j}
    requires w' == AfterArrival(w, t, count)
    ensures Local(g, o, s', w')
  {
    var l := At(Token(t.region, Counted(j, count, t.place.last)));
    assert LocOk(g, t.region, At(t)) && LocOk(g, t.region, l);
    assert LocVal(g, o, t.region, l) == LocVal(g, o, t.region, At(t));
    LocalMoved(g, o, s, w, t, l, s', w');
  }

  lemma ArrivalStep<N(!new)>(g: Graph<N>, o: N -> Outcome, s: State<N>, w: Whereabouts<N>, t: Token<N>, j: N,
      count: nat, s': State<N>, w': Whereabouts<N>)
    requires WellNested(g) && Local(g, o, s, w) && BranchesOk(g, w) && JoinsOk(g, s, w)
    requires ArrivePre(g, w, t, j) && ArrivalEffect(s, t, count, s')
    requires count == Joined(s, j) + 1 && w' == AfterArrival(w, t, count)
    ensures Local(g, o, s', w') && BranchesOk(g, w') && JoinsOk(g, s', w')
  {
    ArrivalLocal(g, o, s, w, t, j, count, s', w');
    BranchesMoved(g, w, t.region, At(Token(t.region, Counted(j, count, t.place.last))), w');
    ArrivalJoins(g, s, w, t, j, count, s', w');
  }

  /** The comparison after the unlock: a counted arrival that is not the last one ends there. */
  ghost predicate SpentPre<N>(g: Graph<N>, w: Whereabouts<N>, t: Token<N>) {
    && t.region in w && w[t.region] == At(t)
    && t.place.Counted? && t.region.Branch?
    && g.kind(t.region.fork).Fork? && t.place.count != g.kind(t.region.fork).active
  }

  ghost function AfterSpent<N>(w: Whereabouts<N>, t: Token<N>): Whereabouts<N>
    requires t.place.Counted?
  {
    w[t.region := Arrived(t.place.last)]
  }

  lemma SpentLocal<N(!new)>(g: Graph<N>, o: N -> Outcome, s: State<N>, w: Whereabouts<N>, t: Token<N>, s': State<N>,
      w': Whereabouts<N>)
    requires WellNested(g) && Local(g, o, s, w) && SpentPre(g, w, t)
    requires s'.tokens == s.tokens - multiset{t}
    requires s'.ended == s.ended && s'.dropped == s.dropped && s'.runs == s.runs
    requires w' == AfterSpent(w, t)
    ensures Local(g, o, s', w')
  {
    RestLocal(g, o, s, w, t, s', w');
  }

  lemma SpentJoins<N(!new)>(g: Graph<N>, s: State<N>, w: Whereabouts<N>, t: Token<N>, s': State<N>, w': Whereabouts<N>)
    requires JoinsOk(g, s, w) && SpentPre(g, w, t)
    requires s'.joined == s.joined && s'.failed == s.failed && w' == AfterSpent(w, t)
    ensures JoinsOk(g, s', w')
  {
    forall h: N | g.kind(h).Fork? ensures ForkInv(g, s', w', h) {
      assert ForkInv(g, s, w, h);
      ForkFrame(g, s, w, s', w', h);
    }
  }

  lemma SpentStep<N(!new)>(g: Graph<N>, o: N -> Outcome, s: State<N>, w: Whereabouts<N>, t: Token<N>, s': State<N>,
      w': Whereabouts<N>)
    requires WellNested(g) && Local(g, o, s, w) && BranchesOk(g, w) && JoinsOk(g, s, w) && SpentPre(g, w, t)
    requires s'.tokens == s.tokens - multiset{t} && s'.joined == s.joined && s'.failed == s.failed
    requires s'.ended == s.ended && s'.dropped == s.dropped && s'.runs == s.runs
    requires w' == AfterSpent(w, t)
    ensures Local(g, o, s', w') && BranchesOk(g, w') && JoinsOk(g, s', w')
  {
    SpentLocal(g, o, s, w, t, s', w');
    BranchesMoved(g, w, t.region, Arrived(t.place.last), w');
    SpentJoins(g, s, w, t, s', w');
  }

  // ---------------------------------------------------------------------------------------------
  // The last arrival
  // ---------------------------------------------------------------------------------------------

  ghost predicate LastPre<N>(g: Graph<N>, w: Whereabouts<N>, t: Token<N>, j: N) {
    && t.region in w && w[t.region] == At(t)
    && t.place.Counted? && t.place.node == j
    && g.kind(j).Join? && JoinOk(g, j)
    && t.region.Branch? && t.region.fork == g.kind(j).fork
    && ForkOk(g, t.region.fork)
    && t.place.count == g.kind(t.region.fork).active
  }

  ghost function JoinState<N>(s: State<N>, j: N): ModState {
    if j in s.failed then MOD_FAILED else MOD_SUCCEED
  }

  /** When the last arrival is seen, the fork is open and every branch has arrived. */
  lemma AllArrived<N(!new)>(g: Graph<N>, s: State<N>, w: Whereabouts<N>, t: Token<N>, j: N)
    requires LastPre(g, w, t, j) && BranchesOk(g, w) && JoinsOk(g, s, w)
    ensures var f := g.kind(j).fork; Forked(w, f) && Open(g, w, f) && Joined(s, j) == g.kind(f).active
    ensures t.region.index < g.kind(g.kind(j).fork).active
    ensures var f := g.kind(j).fork; forall k: nat | k < g.kind(f).active :: ArrivedAt(w, Region.Branch(f, k))
  {
    var f := g.kind(j).fork;
    assert BranchOk(g, w, f, t.region.index);
    assert ForkInv(g, s, w, f);
    CountBounds(w, f, g.kind(f).active);
    assert IsCounted(w[Region.Branch(f, t.region.index)], g.kind(f).active);
  }

  /** A branch that has arrived did so with its sequential meaning. */
  lemma ArrivalMeaning<N(!new)>(g: Graph<N>, o: N -> Outcome, w: Whereabouts<N>, b: Region<N>)
    requires WellNested(g) && Shape(g, w) && ValuesOk(g, o, w)
    requires ArrivedAt(w, b)
    ensures Val(g, o, b) == Arrives(ArrivalState(w[b]))
  {
    assert LocOk(g, b, w[b]) && LocVal(g, o, b, w[b]) == Val(g, o, b);
  }

  lemma ForkMeaning<N(!new)>(g: Graph<N>, o: N -> Outcome, f: N, failed: bool)
    requires WellNested(g) && g.kind(f).Fork? && g.kind(f).active > 0
    requires forall k: nat | k < g.kind(f).active :: Val(g, o, Region.Branch(f, k)).Arrives?
    requires failed <==> exists k: nat :: k < g.kind(f).active && Val(g, o, Region.Branch(f, k)) != Arrives(MOD_SUCCEED)
    ensures NodeOk(g, f)
    ensures EvalRun(g, o, f, MOD_START) == EvalLeave(g, o, g.kind(f).join, if failed then MOD_FAILED else MOD_SUCCEED)
    ensures EvalBranches(g, o, f, g.kind(f).active) == Arrives(if failed then MOD_FAILED else MOD_SUCCEED)
  {
    assert NodeOk(g, f);
    BranchesMeaning(g, o, f, g.kind(f).active);
  }

  /** The flag the last arrival reads after the unlock is set exactly when some branch failed. */
  lemma FlagMeaning<N(!new)>(g: Graph<N>, o: N -> Outcome, s: State<N>, w: Whereabouts<N>, f: N, j: N, a: nat)
    requires WellNested(g) && Shape(g, w) && ValuesOk(g, o, w)
    requires FlagOk(s, w, f, j, a)
    requires forall k: nat | k < a :: ArrivedAt(w, Region.Branch(f, k))
    ensures forall k: nat | k < a :: Val(g, o, Region.Branch(f, k)).Arrives?
    ensures j in s.failed <==> exists k: nat :: k < a && Val(g, o, Region.Branch(f, k)) != Arrives(MOD_SUCCEED)
  {
    forall k: nat | k < a
      ensures Val(g, o, Region.Branch(f, k)).Arrives?
      ensures FailureAt(w, Region.Branch(f, k)) <==> Val(g, o, Region.Branch(f, k)) != Arrives(MOD_SUCCEED)
    {
      assert ArrivedAt(w, Region.Branch(f, k));
      ArrivalMeaning(g, o, w, Region.Branch(f, k));
    }
  }

  lemma JoinStateIsMeaning<N(!new)>(g: Graph<N>, o: N -> Outcome, s: State<N>, w: Whereabouts<N>, t: Token<N>, j: N)
    requires WellNested(g) && Shape(g, w) && ValuesOk(g, o, w)
    requires LastPre(g, w, t, j) && BranchesOk(g, w) && JoinsOk(g, s, w)
    ensures EvalRun(g, o, g.kind(j).fork, MOD_START) == EvalLeave(g, o, j, JoinState(s, j))
    ensures JoinLeaves(g, o, j, JoinState(s, j))
  {
    var f := g.kind(j).fork;
    AllArrived(g, s, w, t, j);
    assert ForkInv(g, s, w, f);
    FlagMeaning(g, o, s, w, f, j, g.kind(f).active);
    ForkMeaning(g, o, f, j in s.failed);
  }

  ghost function AfterLast<N>(g: Graph<N>, s: State<N>, w: Whereabouts<N>, t: Token<N>, j: N): Whereabouts<N>
    requires t.place.Counted?
  {
    w[t.region := Arrived(t.place.last)]
     [g.region(j) := At(Token(g.region(j), JoinTimer(j, JoinState(s, j))))]
  }

  /** Closing the fork is two moves: the last branch rests, and the forking region gets its token back. */
  lemma LastLocal<N(!new)>(g: Graph<N>, o: N -> Outcome, s: State<N>, w: Whereabouts<N>, t: Token<N>, j: N,
      mid: State<N>, v: Whereabouts<N>, s': State<N>, w': Whereabouts<N>)
    requires WellNested(g) && Local(g, o, s, w) && LastPre(g, w, t, j) && Open(g, w, g.kind(j).fork)
    requires g.kind(g.kind(j).fork).active > 0
    requires EvalRun(g, o, g.kind(j).fork, MOD_START) == EvalLeave(g, o, j, JoinState(s, j))
    requires JoinLeaves(g, o, j, JoinState(s, j))
    requires mid == s.(tokens := s.tokens - multiset{t}) && v == AfterSpent(w, t)
    requires s'.tokens == mid.tokens + multiset{Token(g.region(j), JoinTimer(j, JoinState(s, j)))}
    requires s'.ended == s.ended && s'.dropped == s.dropped && s'.runs == s.runs
    requires w' == v[g.region(j) := At(Token(g.region(j), JoinTimer(j, JoinState(s, j))))]
    ensures Local(g, o, s', w')
  {
    RestLocal(g, o, s, w, t, mid, v);
    assert Open(g, v, g.kind(j).fork);
    LocalReturned(g, o, mid, v, g.kind(j).fork, j, JoinState(s, j), s', w');
  }

  lemma RestLocal<N(!new)>(g: Graph<N>, o: N -> Outcome, s: State<N>, w: Whereabouts<N>, t: Token<N>, s': State<N>,
      w': Whereabouts<N>)
    requires WellNested(g) && Local(g, o, s, w) && t.region in w && w[t.region] == At(t)
    requires t.place.Counted? && t.region.Branch?
    requires s'.tokens == s.tokens - multiset{t} && s'.ended == s.ended && s'.dropped == s.dropped && s'.runs == s.runs
    requires w' == AfterSpent(w, t)
    ensures Local(g, o, s', w')
  {
    var l := Arrived(t.place.last);
    assert LocOk(g, t.region, At(t)) && LocOk(g, t.region, l);
    assert LocVal(g, o, t.region, l) == LocVal(g, o, t.region, At(t));
    assert s'.tokens == s.tokens - multiset{t} + TokenOf(l);
    LocalMoved(g, o, s, w, t, l, s', w');
  }

  lemma LocalReturned<N(!new)>(g: Graph<N>, o: N -> Outcome, s: State<N>, w: Whereabouts<N>, f: N, j: N,
      st: ModState, s': State<N>, w': Whereabouts<N>)
    requires WellNested(g) && Local(g, o, s, w)
    requires g.kind(f).Fork? && g.kind(f).active > 0 && ForkOk(g, f) && g.kind(f).join == j && Open(g, w, f)
    requires st == MOD_SUCCEED || st == MOD_FAILED
    requires EvalRun(g, o, f, MOD_START) == EvalLeave(g, o, j, st) && JoinLeaves(g, o, j, st)
    requires s'.tokens == s.tokens + multiset{Token(g.region(j), JoinTimer(j, st))}
    requires s'.ended == s.ended && s'.dropped == s.dropped && s'.runs == s.runs
    requires w' == w[g.region(j) := At(Token(g.region(j), JoinTimer(j, st)))]
    ensures Local(g, o, s', w')
  {
    var r := g.region(j);
    var l := At(Token(r, JoinTimer(j, st)));
    ValuesMoved(g, o, w, r, l);
    EndKept(s, w, s', r, l);
    assert Onward(g, w, w');
    RunsKept(g, s, w, s', w');
    ForksReturned(g, s, w, f, s', w');
    TokensReturned(s, w, r, l, s', w');
  }

  lemma ForksReturned<N(!new)>(g: Graph<N>, s: State<N>, w: Whereabouts<N>, f: N, s': State<N>, w': Whereabouts<N>)
    requires ForksOk(g, s, w) && g.kind(f).Fork? && g.kind(f).active > 0 && Open(g, w, f) && s'.runs == s.runs
    requires w'.Keys == w.Keys && !w'[g.region(f)].InFork? && forall r | r in w && r != g.region(f) :: w'[r] == w[r]
    ensures ForksOk(g, s', w')
  {
    forall h: N | h in s'.runs && g.kind(h).Fork? && g.kind(h).active == 0 ensures Open(g, w', h) {
      assert h in s.runs && Open(g, w, h);
    }
  }

  lemma TokensReturned<N(!new)>(s: State<N>, w: Whereabouts<N>, r: Region<N>, l: Loc<N>, s': State<N>,
      w': Whereabouts<N>)
    requires TokensOk(s, w) && r in w && !w[r].At? && l.At? && l.token.region == r
    requires s'.tokens == s.tokens + multiset{l.token} && w' == w[r := l]
    ensures TokensOk(s', w')
  {
    forall u: Token<N>
      ensures s'.tokens[u] == if u.region in w' && w'[u.region] == At(u) then 1 else 0
    {
      assert s.tokens[u] == if u.region in w && w[u.region] == At(u) then 1 else 0;
    }
  }

  lemma LastAtJoin<N(!new)>(g: Graph<N>, s: State<N>, w: Whereabouts<N>, t: Token<N>, j: N, s': State<N>)
    requires LastPre(g, w, t, j) && BranchesOk(g, w) && JoinsOk(g, s, w)
    requires s'.joined == s.joined && s'.failed == s.failed
    requires g.region(j).Branch? ==> g.region(j).fork != g.kind(j).fork
    ensures ForkInv(g, s', AfterLast(g, s, w, t, j), g.kind(j).fork)
  {
    var f := g.kind(j).fork;
    var a := g.kind(f).active;
    var w' := AfterLast(g, s, w, t, j);
    AllArrived(g, s, w, t, j);
    assert ForkInv(g, s, w, f);
    forall k: nat | k < a
      ensures ArrivedAt(w, Region.Branch(f, k)) && ArrivedAt(w', Region.Branch(f, k))
      ensures FailureAt(w, Region.Branch(f, k)) == FailureAt(w', Region.Branch(f, k))
      ensures !IsCounted(w'[Region.Branch(f, k)], a)
    {
      assert ArrivedAt(w, Region.Branch(f, k));
    }
    CountFrame(w, w', f, a);
  }

  lemma LastElsewhere<N(!new)>(g: Graph<N>, s: State<N>, w: Whereabouts<N>, t: Token<N>, j: N, s': State<N>, h: N)
    requires LastPre(g, w, t, j) && Open(g, w, g.kind(j).fork) && JoinsOk(g, s, w)
    requires s'.joined == s.joined && s'.failed == s.failed
    requires h != g.kind(j).fork && g.kind(h).Fork?
    ensures ForkInv(g, s', AfterLast(g, s, w, t, j), h)
  {
    assert ForkInv(g, s, w, h);
    var w' := AfterLast(g, s, w, t, j);
    forall k: nat | k < g.kind(h).active ensures SameForJoin(w, w', Region.Branch(h, k), g.kind(h).active) {
    }
    ForkFrame(g, s, w, s', w', h);
  }

  lemma LastJoins<N(!new)>(g: Graph<N>, s: State<N>, w: Whereabouts<N>, t: Token<N>, j: N, s': State<N>)
    requires WellNested(g) && LastPre(g, w, t, j) && BranchesOk(g, w) && JoinsOk(g, s, w)
    requires s'.joined == s.joined && s'.failed == s.failed
    ensures JoinsOk(g, s', AfterLast(g, s, w, t, j))
  {
    AllArrived(g, s, w, t, j);
    assert NodeOk(g, j) && NodeOk(g, g.kind(j).fork);
    forall h: N | g.kind(h).Fork? ensures ForkInv(g, s', AfterLast(g, s, w, t, j), h) {
      if h == g.kind(j).fork {
        LastAtJoin(g, s, w, t, j, s');
      } else {
        LastElsewhere(g, s, w, t, j, s', h);
      }
    }
  }

  lemma LastBranches<N(!new)>(g: Graph<N>, s: State<N>, w: Whereabouts<N>, t: Token<N>, j: N)
    requires LastPre(g, w, t, j) && BranchesOk(g, w) && JoinsOk(g, s, w)
    ensures BranchesOk(g, AfterLast(g, s, w, t, j))
  {
    AllArrived(g, s, w, t, j);
    var v := AfterSpent(w, t);
    BranchesMoved(g, w, t.region, Arrived(t.place.last), v);
    BranchesMoved(g, v, g.region(j), At(Token(g.region(j), JoinTimer(j, JoinState(s, j)))), AfterLast(g, s, w, t, j));
  }

  lemma LastStep<N(!new)>(g: Graph<N>, o: N -> Outcome, s: State<N>, w: Whereabouts<N>, t: Token<N>, j: N,
      s': State<N>, w': Whereabouts<N>)
    requires WellNested(g) && Inv(g, o, s, w) && LastPre(g, w, t, j)
    requires s'.tokens == s.tokens - multiset{t} + multiset{Token(g.region(j), JoinTimer(j, JoinState(s, j)))}
    requires s'.joined == s.joined && s'.failed == s.failed
    requires s'.ended == s.ended && s'.dropped == s.dropped && s'.runs == s.runs
    requires w' == AfterLast(g, s, w, t, j)
    ensures Inv(g, o, s', w')
  {
    AllArrived(g, s, w, t, j);
    JoinStateIsMeaning(g, o, s, w, t, j);
    LastLocal(g, o, s, w, t, j, s.(tokens := s.tokens - multiset{t}), AfterSpent(w, t), s', w');
    LastJoins(g, s, w, t, j, s');
    LastBranches(g, s, w, t, j);
  }
}
