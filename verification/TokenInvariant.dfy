/**
 What every step of the token protocol keeps, for every well-nested graph, every outcome of the user
 modules and every interleaving.

 The invariant is stated with a witness map `w` that says, for the request and for each branch ever
 forked, where its single share of the work currently is.  The token bag is then determined by `w`.
 */
module TokenInvariant {
  import opened ModStates
  import opened TokenEngine

  /** Where the one share of a region is. */
  datatype Loc<+N> =
    | At(token: Token<N>)
    | InFork(fork: N)
    | Unarmed(fork: N)
    | Arrived(state: ModState)
    | Dropped
    | Ended

  type Whereabouts<!N(==)> = map<Region<N>, Loc<N>>

  // ---------------------------------------------------------------------------------------------
  // The invariant
  // ---------------------------------------------------------------------------------------------

  ghost predicate PlaceOk<N>(g: Graph<N>, r: Region<N>, p: Place<N>) {
    match p
    case Run(n, _) => Enters(g, n, r)
    case Pending(n) => g.kind(n).Simple? && g.region(n) == r
    case Leave(n, st) => (
      match g.kind(n)
      case Simple => g.region(n) == r
      case Fork(_, a) => r.Branch? && r.fork == n && r.index < a < UINT16_MODULUS && st == MOD_FORK0 + r.index
      case Join(_) => g.region(n) == r && (st == MOD_SUCCEED || st == MOD_FAILED))
    case Arming(f) => r.Branch? && r.fork == f && g.kind(f).Fork? && r.index < g.kind(f).active < UINT16_MODULUS
    case ForkTimer(f) => r.Branch? && r.fork == f && g.kind(f).Fork? && r.index < g.kind(f).active < UINT16_MODULUS
    case Counted(j, _, _) => g.kind(j).Join? && r.Branch? && r.fork == g.kind(j).fork
    case JoinTimer(j, st) => g.kind(j).Join? && g.region(j) == r && (st == MOD_SUCCEED || st == MOD_FAILED)
  }

  ghost predicate LocOk<N>(g: Graph<N>, r: Region<N>, l: Loc<N>) {
    match l
    case At(t) => t.region == r && PlaceOk(g, r, t.place)
    case InFork(f) => g.kind(f).Fork? && g.region(f) == r
    case Unarmed(f) => r.Branch? && r.fork == f && g.kind(f).Fork? && r.index < g.kind(f).active < UINT16_MODULUS
    case Arrived(_) => r.Branch?
    case Dropped => true
    case Ended => r == Top
  }

  /** Progress of a region; it never grows. */
  ghost function Pos<N>(g: Graph<N>, l: Loc<N>): int {
    match l
    case At(Token(_, Run(n, _))) => if g.kind(n).Join? then -1 else 2 * g.rank(n) + 1
    case At(Token(_, Counted(_, _, _))) => -1
    case At(Token(_, p)) => 2 * g.rank(p.node)
    case InFork(f) => 2 * g.rank(f)
    case Unarmed(f) => 2 * g.rank(f)
    case _ => -1
  }

  ghost predicate HasArrived<N>(l: Loc<N>) {
    l.Arrived? || (l.At? && l.token.place.Counted?)
  }

  ghost function ArrivalState<N>(l: Loc<N>): ModState
    requires HasArrived(l)
  {
    if l.Arrived? then l.state else l.token.place.last
  }

  ghost predicate IsCounted<N>(l: Loc<N>, count: nat) {
    l.At? && l.token.place.Counted? && l.token.place.count == count
  }

  ghost predicate ArrivedAt<N>(w: Whereabouts<N>, r: Region<N>) {
    r in w && HasArrived(w[r])
  }

  ghost function CountArrived<N>(w: Whereabouts<N>, f: N, a: nat): nat {
    if a == 0 then 0
    else CountArrived(w, f, a - 1) + (if ArrivedAt(w, Region.Branch(f, a - 1)) then 1 else 0)
  }

  ghost predicate Forked<N>(w: Whereabouts<N>, f: N) {
    Region.Branch(f, 0) in w
  }

  ghost predicate Open<N>(g: Graph<N>, w: Whereabouts<N>, f: N) {
    g.region(f) in w && w[g.region(f)] == InFork(f)
  }

  /** A join that has not seen its fork yet is as `reset` left it. */
  ghost predicate FreshJoin<N>(s: State<N>, j: N) {
    Joined(s, j) == 0 && j !in s.failed
  }

  ghost predicate FailureAt<N>(w: Whereabouts<N>, r: Region<N>) {
    ArrivedAt(w, r) && ArrivalState(w[r]) != MOD_SUCCEED
  }

  ghost predicate CountsOk<N>(w: Whereabouts<N>, f: N, a: nat, joined: nat) {
    && joined == CountArrived(w, f, a)
    && (forall k: nat, c: nat | k < a && Region.Branch(f, k) in w
         && IsCounted(w[Region.Branch(f, k)], c) :: 1 <= c <= joined)
    && (forall k: nat, k': nat | k < k' < a && Region.Branch(f, k) in w && Region.Branch(f, k') in w ::
          !(IsCounted(w[Region.Branch(f, k)], a) && IsCounted(w[Region.Branch(f, k')], a)))
  }

  ghost predicate TriggerOk<N>(g: Graph<N>, w: Whereabouts<N>, f: N, a: nat, joined: nat) {
    if Open(g, w, f) then
      joined == a ==> exists k: nat :: k < a && Region.Branch(f, k) in w && IsCounted(w[Region.Branch(f, k)], a)
    else
      joined == a && forall k: nat | k < a && Region.Branch(f, k) in w :: !IsCounted(w[Region.Branch(f, k)], a)
  }

  ghost predicate FlagOk<N>(s: State<N>, w: Whereabouts<N>, f: N, j: N, a: nat) {
    j in s.failed <==> exists k: nat :: k < a && FailureAt(w, Region.Branch(f, k))
  }

  ghost predicate ForkInv<N>(g: Graph<N>, s: State<N>, w: Whereabouts<N>, f: N)
    requires g.kind(f).Fork?
  {
    var Fork(j, a) := g.kind(f);
    if Forked(w, f) then
      && CountsOk(w, f, a, Joined(s, j))
      && TriggerOk(g, w, f, a, Joined(s, j))
      && FlagOk(s, w, f, j, a)
    else
      FreshJoin(s, j)
  }

  ghost function PlaceVal<N(!new)>(g: Graph<N>, o: N -> Outcome, r: Region<N>, p: Place<N>): Verdict
    requires WellNested(g) && PlaceOk(g, r, p)
  {
    match p
    case Run(n, last) => EvalRun(g, o, n, last)
    case Pending(n) => if o(n).Drops? then Lost else EvalLeave(g, o, n, o(n).state)
    case Leave(n, st) => if g.kind(n).Fork? then EvalBranch(g, o, n, r.index) else EvalLeave(g, o, n, st)
    case Arming(f) => EvalBranch(g, o, f, r.index)
    case ForkTimer(f) => EvalBranch(g, o, f, r.index)
    case Counted(_, _, last) => Arrives(last)
    case JoinTimer(j, st) => EvalLeave(g, o, j, st)
  }

  ghost function LocVal<N(!new)>(g: Graph<N>, o: N -> Outcome, r: Region<N>, l: Loc<N>): Verdict
    requires WellNested(g) && LocOk(g, r, l)
  {
    match l
    case At(t) => PlaceVal(g, o, r, t.place)
    case InFork(f) => EvalRun(g, o, f, MOD_START)
    case Unarmed(f) => EvalBranch(g, o, f, r.index)
    case Arrived(st) => Arrives(st)
    case Dropped => Lost
    case Ended => Ends
  }

  /** A token emitted by a join carries the state its branches amount to. */
  ghost predicate EmitsMeaning<N(!new)>(g: Graph<N>, o: N -> Outcome, l: Loc<N>)
    requires WellNested(g)
  {
    l.At? && (l.token.place.JoinTimer? || l.token.place.Leave?) ==>
      JoinLeaves(g, o, l.token.place.node, l.token.place.state)
  }

  ghost predicate JoinLeaves<N(!new)>(g: Graph<N>, o: N -> Outcome, j: N, st: ModState)
    requires WellNested(g)
  {
    g.kind(j).Join? ==>
      var f := g.kind(j).fork;
      g.kind(f).Fork? && EvalBranches(g, o, f, g.kind(f).active) == Arrives(st)
  }

  ghost predicate Shape<N>(g: Graph<N>, w: Whereabouts<N>) {
    && Top in w
    && (forall r | r in w :: LocOk(g, r, w[r]))
  }

  ghost predicate TokensOk<N(!new)>(s: State<N>, w: Whereabouts<N>) {
    forall t: Token<N> :: s.tokens[t] == if t.region in w && w[t.region] == At(t) then 1 else 0
  }

  ghost predicate BranchOk<N>(g: Graph<N>, w: Whereabouts<N>, f: N, k: nat) {
    && g.kind(f).Fork? && k < g.kind(f).active
    && Forked(w, f)
    && g.region(f) in w && Pos(g, w[g.region(f)]) <= 2 * g.rank(f)
  }

  ghost predicate IsArming<N>(l: Loc<N>) {
    l.At? && l.token.place.Arming?
  }

  /** The branches whose timers are not armed yet are those after the one being armed. */
  ghost predicate ArmOk<N>(w: Whereabouts<N>, f: N, k: nat)
    requires Region.Branch(f, k) in w
  {
    var b := Region.Branch(f, k);
    if k == 0 then !w[b].Unarmed?
    else
      var before := Region.Branch(f, k - 1);
      before in w && (w[b].Unarmed? <==> w[before].Unarmed? || IsArming(w[before]))
  }

  ghost predicate ArmsOk<N(!new)>(w: Whereabouts<N>) {
    forall f: N, k: nat {:trigger ArmOk(w, f, k)} | Region.Branch(f, k) in w :: ArmOk(w, f, k)
  }

  ghost predicate BranchesOk<N(!new)>(g: Graph<N>, w: Whereabouts<N>) {
    && (forall f: N, k: nat | Region.Branch(f, k) in w :: BranchOk(g, w, f, k))
    && (forall f: N, k: nat | Forked(w, f) && g.kind(f).Fork? && k < g.kind(f).active :: Region.Branch(f, k) in w)
    && (forall r | r in w && w[r].InFork? && g.kind(w[r].fork).Fork? ::
          g.kind(w[r].fork).active == 0 || Forked(w, w[r].fork))
    && ArmsOk(w)
  }

  ghost predicate JoinsOk<N(!new)>(g: Graph<N>, s: State<N>, w: Whereabouts<N>) {
    forall f: N | g.kind(f).Fork? :: ForkInv(g, s, w, f)
  }

  ghost predicate ValuesOk<N(!new)>(g: Graph<N>, o: N -> Outcome, w: Whereabouts<N>)
    requires WellNested(g) && Shape(g, w)
  {
    && (forall r | r in w :: LocVal(g, o, r, w[r]) == Val(g, o, r))
    && (forall r | r in w :: EmitsMeaning(g, o, w[r]))
  }

  ghost predicate EndOk<N>(s: State<N>, w: Whereabouts<N>)
    requires Top in w
  {
    && s.ended == (if w[Top] == Ended then 1 else 0)
    && ((exists r :: r in w && w[r] == Dropped) ==> s.dropped > 0)
  }

  /** A module that is not a join has run at most once, and its region has moved past it. */
  ghost predicate RunsOk<N(!new)>(g: Graph<N>, s: State<N>, w: Whereabouts<N>) {
    forall n: N | n in s.runs && !g.kind(n).Join? ::
      s.runs[n] == 1 && g.region(n) in w && Pos(g, w[g.region(n)]) <= 2 * g.rank(n)
  }

  /** A region inside a fork has run it, and one that has run a fork without active branches stays there. */
  ghost predicate ForksOk<N(!new)>(g: Graph<N>, s: State<N>, w: Whereabouts<N>) {
    && (forall r | r in w && w[r].InFork? :: w[r].fork in s.runs)
    && (forall f: N | f in s.runs && g.kind(f).Fork? && g.kind(f).active == 0 :: Open(g, w, f))
  }

  ghost predicate Inv<N(!new)>(g: Graph<N>, o: N -> Outcome, s: State<N>, w: Whereabouts<N>)
    requires WellNested(g)
  {
    && Shape(g, w)
    && TokensOk(s, w)
    && BranchesOk(g, w)
    && JoinsOk(g, s, w)
    && ValuesOk(g, o, w)
    && EndOk(s, w)
    && RunsOk(g, s, w)
    && ForksOk(g, s, w)
  }

  // ---------------------------------------------------------------------------------------------
  // Counting arrivals
  // ---------------------------------------------------------------------------------------------

  lemma CountBounds<N>(w: Whereabouts<N>, f: N, a: nat)
    ensures CountArrived(w, f, a) <= a
    ensures CountArrived(w, f, a) == a <==> forall k: nat | k < a :: ArrivedAt(w, Region.Branch(f, k))
  {
  }

  lemma CountFrame<N>(w: Whereabouts<N>, w': Whereabouts<N>, f: N, a: nat)
    requires forall k: nat | k < a :: ArrivedAt(w, Region.Branch(f, k)) == ArrivedAt(w', Region.Branch(f, k))
    ensures CountArrived(w, f, a) == CountArrived(w', f, a)
  {
  }

  lemma CountArrival<N>(w: Whereabouts<N>, f: N, a: nat, k: nat, l: Loc<N>)
    requires k < a && !ArrivedAt(w, Region.Branch(f, k)) && HasArrived(l)
    ensures CountArrived(w[Region.Branch(f, k) := l], f, a) == CountArrived(w, f, a) + 1
  {
    var w' := w[Region.Branch(f, k) := l];
    if k == a - 1 {
      CountFrame(w, w', f, a - 1);
    } else {
      CountArrival(w, f, a - 1, k, l);
    }
  }
}
