/** The modules of the example server, its configuration, and the names the modules are registered under. */
module ExampleGraph {
  import opened ModStates

  datatype ModId =
    | ReqMod | GenFsReqMod | FsForkMod | FsJoinMod
    | FsMod(i: nat) | PsForkMod2(i: nat) | PsJoinMod2(i: nat)
    | PsMod2(i: nat, j: nat) | PsBackfillMod2(i: nat, j: nat)
    | GenPsReqMod | PsForkMod | PsJoinMod
    | PsMod(i: nat) | PsBackfillMod(i: nat)
    | IfRandMod | RespMod | RandRespMod | EmptyRespMod | EndMod

  /** The three size flags, and the five result states the concrete modules add. */
  datatype Config = Config(
    fsShards: nat, subModels: nat, psShards: nat,
    toFs: ModState, toPs: ModState, toRandom: ModState, notRand: ModState, rand: ModState)
  {
    function PsWidth(): nat { subModels * psShards }
  }

  // ---------------------------------------------------------------------------------------------
  // Names
  // ---------------------------------------------------------------------------------------------

  const DIGITS := "0123456789"

  /** The `%d` conversion. */
  function Decimal(n: nat): string {
    if n < 10 then [DIGITS[n]] else Decimal(n / 10) + [DIGITS[n % 10]]
  }

  function Name(id: ModId): string {
    match id
    case ReqMod => "req_mod"
    case GenFsReqMod => "gen_fs_req_mod"
    case FsForkMod => "fs_fork_mod"
    case FsJoinMod => "fs_join_mod"
    case FsMod(i) => "fs_mod" + Decimal(i)
    case PsForkMod2(i) => "ps_fork_mod2_" + Decimal(i)
    case PsJoinMod2(i) => "ps_join_mod2_" + Decimal(i)
    case PsMod2(i, j) => "ps_mod2_" + (Decimal(i) + "_" + Decimal(j))
    case PsBackfillMod2(i, j) => "ps_backfill_mod2_" + (Decimal(i) + "_" + Decimal(j))
    case GenPsReqMod => "gen_ps_req_mod"
    case PsForkMod => "ps_fork_mod"
    case PsJoinMod => "ps_join_mod"
    case PsMod(i) => "ps_mod_" + Decimal(i)
    case PsBackfillMod(i) => "ps_backfill_mod_" + Decimal(i)
    case IfRandMod => "if_rand_mod"
    case RespMod => "resp_mod"
    case RandRespMod => "rand_resp_mod"
    case EmptyRespMod => "empty_resp_mod"
    case EndMod => "end_mod"
  }

  function DigitValue(c: char): int {
    c as int - '0' as int
  }

  function Value(s: string): int {
    if s == [] then 0 else 10 * Value(s[..|s| - 1]) + DigitValue(s[|s| - 1])
  }

  lemma {:induction false} DecimalRoundTrip(n: nat)
    ensures Value(Decimal(n)) == n && '_' !in Decimal(n) && |Decimal(n)| > 0
  {
    if n < 10 {
      assert Decimal(n)[..0] == [];
      assert DIGITS[n] in DIGITS;
    } else {
      DecimalRoundTrip(n / 10);
      assert Decimal(n)[..|Decimal(n)| - 1] == Decimal(n / 10);
      assert DIGITS[n % 10] in DIGITS;
    }
  }

  lemma DecimalInjective(m: nat, n: nat)
    requires Decimal(m) == Decimal(n)
    ensures m == n
  {
    DecimalRoundTrip(m);
    DecimalRoundTrip(n);
  }

  /** The position of the first underscore. */
  function Underscore(s: string): nat {
    if s == [] || s[0] == '_' then 0 else 1 + Underscore(s[1..])
  }

  lemma {:induction false} UnderscoreAfter(a: string, b: string)
    requires '_' !in a
    ensures Underscore(a + "_" + b) == |a|
  {
    if a == [] {
      assert a + "_" + b == "_" + b;
    } else {
      assert (a + "_" + b)[1..] == a[1..] + "_" + b;
      UnderscoreAfter(a[1..], b);
    }
  }

  lemma SplitAtUnderscore(a: string, b: string, c: string, d: string)
    requires '_' !in a && '_' !in c && a + "_" + b == c + "_" + d
    ensures a == c && b == d
  {
    UnderscoreAfter(a, b);
    UnderscoreAfter(c, d);
    var s := a + "_" + b;
    assert s[..|a|] == a && s[..|c|] == c;
    assert s[|a| + 1..] == b && s[|c| + 1..] == d;
  }

  /** A few fixed positions of a name tell which family it belongs to. */
  function Family(s: string): nat
  {
    if |s| < 7 then 99
    else if s[0] == 'r' then (if s[1] == 'a' then 0 else if s[2] == 'q' then 1 else 2)
    else if s[0] == 'f' then (if s[3] == 'f' then 3 else if s[3] == 'm' then 4 else 5)
    else if s[0] == 'g' then (if s[4] == 'f' then 6 else 7)
    else if s[0] == 'i' then 8
    else if s[0] == 'e' then (if s[1] == 'm' then 9 else 10)
    else if s[3] == 'f' then (if |s| == 11 then 11 else 12)
    else if s[3] == 'j' then (if |s| == 11 then 13 else 14)
    else if s[3] == 'm' then (if s[6] == '2' then 15 else 16)
    else if |s| > 15 && s[15] == '2' then 17 else 18
  }

  function FamilyOf(id: ModId): nat {
    match id
    case RandRespMod => 0 case ReqMod => 1 case RespMod => 2
    case FsForkMod => 3 case FsMod(_) => 4 case FsJoinMod => 5
    case GenFsReqMod => 6 case GenPsReqMod => 7 case IfRandMod => 8
    case EmptyRespMod => 9 case EndMod => 10
    case PsForkMod => 11 case PsForkMod2(_) => 12 case PsJoinMod => 13 case PsJoinMod2(_) => 14
    case PsMod2(_, _) => 15 case PsMod(_) => 16
    case PsBackfillMod2(_, _) => 17 case PsBackfillMod(_) => 18
  }

  lemma FixedFamily(id: ModId)
    requires !id.FsMod? && !id.PsForkMod2? && !id.PsJoinMod2? && !id.PsMod2? && !id.PsBackfillMod2? && !id.PsMod?
        && !id.PsBackfillMod?
    ensures Family(Name(id)) == FamilyOf(id)
  {
  }

  lemma ForkJoinFamily(i: nat)
    ensures Family(Name(FsMod(i))) == 4
    ensures Family(Name(PsForkMod2(i))) == 12
    ensures Family(Name(PsJoinMod2(i))) == 14
  {
    DecimalRoundTrip(i);
  }

  lemma LeafFamily(i: nat, j: nat)
    ensures Family(Name(PsMod2(i, j))) == 15
    ensures Family(Name(PsMod(i))) == 16
    ensures Family(Name(PsBackfillMod2(i, j))) == 17
    ensures Family(Name(PsBackfillMod(i))) == 18
  {
    DecimalRoundTrip(i);
  }

  lemma NameTellsFamily(id: ModId)
    ensures Family(Name(id)) == FamilyOf(id)
  {
    match id
    case FsMod(i) => ForkJoinFamily(i);
    case PsForkMod2(i) => ForkJoinFamily(i);
    case PsJoinMod2(i) => ForkJoinFamily(i);
    case PsMod2(i, j) => LeafFamily(i, j);
    case PsBackfillMod2(i, j) => LeafFamily(i, j);
    case PsMod(i) => LeafFamily(i, 0);
    case PsBackfillMod(i) => LeafFamily(i, 0);
    case _ => FixedFamily(id);
  }

  lemma TailOf(p: string, a: string, b: string)
    requires p + a == p + b
    ensures a == b
  {
    assert (p + a)[|p|..] == a && (p + b)[|p|..] == b;
  }

  /** No two modules of the example share a name, so `add_module` never refuses one. */
  lemma NamesAreDistinct(a: ModId, b: ModId)
    requires Name(a) == Name(b)
    ensures a == b
  {
    NameTellsFamily(a);
    NameTellsFamily(b);
    match a
    case FsMod(i) => TailOf("fs_mod", Decimal(i), Decimal(b.i)); DecimalInjective(i, b.i);
    case PsForkMod2(i) => TailOf("ps_fork_mod2_", Decimal(i), Decimal(b.i)); DecimalInjective(i, b.i);
    case PsJoinMod2(i) => TailOf("ps_join_mod2_", Decimal(i), Decimal(b.i)); DecimalInjective(i, b.i);
    case PsMod(i) => TailOf("ps_mod_", Decimal(i), Decimal(b.i)); DecimalInjective(i, b.i);
    case PsBackfillMod(i) => TailOf("ps_backfill_mod_", Decimal(i), Decimal(b.i)); DecimalInjective(i, b.i);
    case PsMod2(i, j) =>
      TailOf("ps_mod2_", Decimal(i) + "_" + Decimal(j), Decimal(b.i) + "_" + Decimal(b.j));
      PairIsInjective(i, j, b.i, b.j);
    case PsBackfillMod2(i, j) =>
      TailOf("ps_backfill_mod2_", Decimal(i) + "_" + Decimal(j), Decimal(b.i) + "_" + Decimal(b.j));
      PairIsInjective(i, j, b.i, b.j);
    case _ =>
  }

  lemma PairIsInjective(i: nat, j: nat, k: nat, l: nat)
    requires Decimal(i) + "_" + Decimal(j) == Decimal(k) + "_" + Decimal(l)
    ensures i == k && j == l
  {
    DecimalRoundTrip(i);
    DecimalRoundTrip(k);
    SplitAtUnderscore(Decimal(i), Decimal(j), Decimal(k), Decimal(l));
    DecimalInjective(i, k);
    DecimalInjective(j, l);
  }
}
