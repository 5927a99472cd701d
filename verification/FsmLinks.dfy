/** The module table and the transition table of the Fsm, and the successor lookup. */
module FsmLinks {
  import opened ModStates

  /** A module object: its registered name and its identity. */
  datatype Module<+T> = Module(name: string, self: T)

  /** `mods` may hold a null pointer: indexing the module table inserts one for an unknown name. */
  datatype Tables<+T> = Tables(mods: map<string, Option<Module<T>>>, trans: map<string, map<ModState, string>>)

  /** The configuration calls a server makes before it starts. */
  datatype Call<+T> = Add(mod: Module<T>) | Link(from: Module<T>, to: Module<T>, state: ModState)

  // ---------------------------------------------------------------------------------------------
  // The tables as the source keeps them
  // ---------------------------------------------------------------------------------------------

  /** `std::map::insert`: an existing key keeps its value. */
  function Insert<K, V>(m: map<K, V>, k: K, v: V): map<K, V> {
    if k in m then m else m[k := v]
  }

  function Configure<T>(t: Tables<T>, c: Call<T>): Tables<T> {
    match c
    case Add(mod) => t.(mods := Insert(t.mods, mod.name, Some(mod)))
    case Link(from, to, state) =>
      var row := if from.name in t.trans then t.trans[from.name] else map[];
      t.(trans := t.trans[from.name := Insert(row, state, to.name)])
  }

  function ConfigureAll<T>(t: Tables<T>, calls: seq<Call<T>>): Tables<T> {
    if calls == [] then t
    else Configure(ConfigureAll(t, calls[..|calls| - 1]), calls[|calls| - 1])
  }

  function EmptyTables<T>(): Tables<T> {
    Tables(map[], map[])
  }

  /** The name a module is linked to under exactly this state. */
  function Row<T>(t: Tables<T>, name: string, state: ModState): Option<string> {
    if name in t.trans && state in t.trans[name] then Some(t.trans[name][state]) else None
  }

  /** The name `_get_next_module` settles on: the exact state, else the catch-all. */
  function Successor<T>(t: Tables<T>, name: string, state: ModState): Option<string> {
    if Row(t, name, state).Some? then Row(t, name, state) else Row(t, name, MOD_ELSE)
  }

  function Pointer<T>(t: Tables<T>, name: string): Option<Module<T>> {
    if name in t.mods then t.mods[name] else None
  }

  class Fsm<T> {
    var modMap: map<string, Option<Module<T>>>
    var transMap: map<string, map<ModState, string>>
    ghost var calls: seq<Call<T>>  // the configuration calls made so far

    function Contents(): Tables<T>
      reads this
    {
      Tables(modMap, transMap)
    }

    /** The tables are what the configuration calls made of them. */
    ghost predicate Configured()
      reads this
    {
      Contents() == ConfigureAll(EmptyTables(), calls)
    }

    constructor ()
      ensures Configured() && calls == []
    {
      modMap, transMap := map[], map[];
      calls := [];
    }

    method AddModule(mod: Module<T>)
      requires Configured()
      modifies this
      ensures Configured() && calls == old(calls) + [Add(mod)]
    {
      calls := calls + [Add(mod)];
      assert calls[..|calls| - 1] == old(calls);
      if mod.name in modMap {
        return;
      }
      modMap := modMap[mod.name := Some(mod)];
    }

    method LinkModule(from: Module<T>, to: Module<T>, state: ModState)
      requires Configured()
      modifies this
      ensures Configured() && calls == old(calls) + [Link(from, to, state)]
    {
      calls := calls + [Link(from, to, state)];
      assert calls[..|calls| - 1] == old(calls);
      if from.name in transMap {
        var row: map<ModState, string> := transMap[from.name];
        if state !in row {
          row := row[state := to.name];
          transMap := transMap[from.name := row];
        }
        assert old(transMap)[from.name := old(transMap)[from.name]] == old(transMap);
      } else {
        var row: map<ModState, string> := map[];
        row := row[state := to.name];
        transMap := transMap[from.name := row];
      }
    }

    /** Returns the module linked to `mod` under `state`, or null.  Looking up a name that was never
        registered also enters a null pointer for it in the module table. */
    method GetNextModule(mod: Module<T>, state: ModState) returns (next: Option<Module<T>>)
      modifies this`modMap
      ensures match Successor(old(Contents()), mod.name, state)
              case None => next == None && modMap == old(modMap)
              case Some(name) =>
                && next == Pointer(old(Contents()), name)
                && modMap == Insert(old(modMap), name, None)
    {
      if mod.name !in transMap {
        return None;
      }
      var row := transMap[mod.name];
      if state in row {
        next := Fetch(row[state]);
        return;
      }
      if MOD_ELSE in row {
        next := Fetch(row[MOD_ELSE]);
        return;
      }
      return None;
    }

    /** `mod_map_[name]`. */
    method Fetch(name: string) returns (mod: Option<Module<T>>)
      modifies this`modMap
      ensures mod == Pointer(old(Contents()), name)
      ensures modMap == Insert(old(modMap), name, None)
    {
      if name !in modMap {
        modMap := modMap[name := None];
      }
      mod := modMap[name];
    }
  }

  // ---------------------------------------------------------------------------------------------
  // The rule a server author works with
  // ---------------------------------------------------------------------------------------------

  /** The target of the earliest link out of `name` under exactly `state`. */
  function EarliestLink<T>(calls: seq<Call<T>>, name: string, state: ModState): Option<Module<T>> {
    if calls == [] then None
    else if calls[0].Link? && calls[0].from.name == name && calls[0].state == state then Some(calls[0].to)
    else EarliestLink(calls[1..], name, state)
  }

  function EarliestAdd<T>(calls: seq<Call<T>>, name: string): Option<Module<T>> {
    if calls == [] then None
    else if calls[0].Add? && calls[0].mod.name == name then Some(calls[0].mod)
    else EarliestAdd(calls[1..], name)
  }

  /** Earliest link for the state, else earliest catch-all link, else none. */
  function NextRule<T>(calls: seq<Call<T>>, name: string, state: ModState): Option<Module<T>> {
    if EarliestLink(calls, name, state).Some? then EarliestLink(calls, name, state)
    else EarliestLink(calls, name, MOD_ELSE)
  }

  lemma {:induction false} EarliestLinkLast<T>(calls: seq<Call<T>>, c: Call<T>, name: string, state: ModState)
    ensures EarliestLink(calls + [c], name, state) ==
            if EarliestLink(calls, name, state).Some? then EarliestLink(calls, name, state)
            else EarliestLink([c], name, state)
  {
    if calls == [] {
      assert calls + [c] == [c];
    } else {
      assert (calls + [c])[1..] == calls[1..] + [c];
      EarliestLinkLast(calls[1..], c, name, state);
    }
  }

  lemma {:induction false} EarliestAddLast<T>(calls: seq<Call<T>>, c: Call<T>, name: string)
    ensures EarliestAdd(calls + [c], name) ==
            if EarliestAdd(calls, name).Some? then EarliestAdd(calls, name) else EarliestAdd([c], name)
  {
    if calls == [] {
      assert calls + [c] == [c];
    } else {
      assert (calls + [c])[1..] == calls[1..] + [c];
      EarliestAddLast(calls[1..], c, name);
    }
  }

  /** The nested maps hold exactly the earliest links and the earliest registrations. */
  lemma {:induction false} TablesHoldEarliest<T>(calls: seq<Call<T>>, name: string, state: ModState)
    ensures var t := ConfigureAll(EmptyTables(), calls);
            && (name in t.mods <==> EarliestAdd(calls, name).Some?)
            && (name in t.mods ==> t.mods[name] == EarliestAdd(calls, name))
            && (Row(t, name, state).Some? <==> EarliestLink(calls, name, state).Some?)
            && (Row(t, name, state).Some? ==> Row(t, name, state).value == EarliestLink(calls, name, state).value.name)
    decreases |calls|
  {
    if calls != [] {
      var front, c := calls[..|calls| - 1], calls[|calls| - 1];
      assert calls == front + [c];
      TablesHoldEarliest(front, name, state);
      EarliestLinkLast(front, c, name, state);
      EarliestAddLast(front, c, name);
    }
  }

  /** A name is registered for one module only. */
  ghost predicate UniqueNames<T(!new)>(calls: seq<Call<T>>) {
    forall c, d | c in calls && d in calls && c.Add? && d.Add? && c.mod.name == d.mod.name :: c == d
  }

  /** Every link target is registered, under a name of its own. */
  ghost predicate WellConfigured<T(!new)>(calls: seq<Call<T>>) {
    && (forall c | c in calls && c.Link? :: Add(c.to) in calls)
    && UniqueNames(calls)
  }

  lemma {:induction false} EarliestLinkIsACall<T>(calls: seq<Call<T>>, name: string, state: ModState)
    ensures EarliestLink(calls, name, state).Some? ==>
              exists c :: c in calls && c.Link? && c.from.name == name && c.state == state
                  && c.to == EarliestLink(calls, name, state).value
  {
    if calls != [] && !(calls[0].Link? && calls[0].from.name == name && calls[0].state == state) {
      EarliestLinkIsACall(calls[1..], name, state);
      if EarliestLink(calls, name, state).Some? {
        var c :| c in calls[1..] && c.Link? && c.from.name == name && c.state == state
            && c.to == EarliestLink(calls[1..], name, state).value;
        assert c in calls;
      }
    }
  }

  lemma {:induction false} EarliestAddFinds<T>(calls: seq<Call<T>>, mod: Module<T>)
    requires Add(mod) in calls
    requires forall d | d in calls && d.Add? && d.mod.name == mod.name :: d.mod == mod
    ensures EarliestAdd(calls, mod.name) == Some(mod)
  {
    if !(calls[0].Add? && calls[0].mod.name == mod.name) {
      EarliestAddFinds(calls[1..], mod);
    } else {
      assert calls[0] in calls;
    }
  }

  lemma RegisteredIsFound<T(!new)>(calls: seq<Call<T>>, mod: Module<T>)
    requires UniqueNames(calls) && Add(mod) in calls
    ensures Pointer(ConfigureAll(EmptyTables(), calls), mod.name) == Some(mod)
  {
    EarliestAddFinds(calls, mod);
    TablesHoldEarliest(calls, mod.name, MOD_ELSE);
  }

  lemma ResolvesToTarget<T(!new)>(calls: seq<Call<T>>, name: string, state: ModState)
    requires WellConfigured(calls) && EarliestLink(calls, name, state).Some?
    ensures var to := EarliestLink(calls, name, state).value;
            Pointer(ConfigureAll(EmptyTables(), calls), to.name) == Some(to)
  {
    EarliestLinkIsACall(calls, name, state);
    RegisteredIsFound(calls, EarliestLink(calls, name, state).value);
  }

  /** On a well-configured Fsm the lookup is the earliest-link rule, and it changes no table. */
  lemma LookupFollowsRule<T(!new)>(calls: seq<Call<T>>, name: string, state: ModState)
    requires WellConfigured(calls)
    ensures var t := ConfigureAll(EmptyTables(), calls);
            match Successor(t, name, state)
            case None => NextRule(calls, name, state) == None
            case Some(succ) => Pointer(t, succ) == NextRule(calls, name, state) && Insert(t.mods, succ, None) == t.mods
  {
    TablesHoldEarliest(calls, name, state);
    TablesHoldEarliest(calls, name, MOD_ELSE);
    if EarliestLink(calls, name, state).Some? {
      ResolvesToTarget(calls, name, state);
    } else if EarliestLink(calls, name, MOD_ELSE).Some? {
      ResolvesToTarget(calls, name, MOD_ELSE);
    }
  }

  /** One link to a module that was never registered is enough. */
  lemma LookupCanPollute<T>(from: Module<T>, to: Module<T>, state: ModState)
    ensures var t := ConfigureAll(EmptyTables(), [Link(from, to, state)]);
            Successor(t, from.name, state) == Some(to.name) && Insert(t.mods, to.name, None) != t.mods
  {
    var calls := [Link(from, to, state)];
    TablesHoldEarliest(calls, from.name, state);
    TablesHoldEarliest(calls, to.name, state);
    assert to.name in Insert(ConfigureAll(EmptyTables(), calls).mods, to.name, None);
  }

  /** The lookup changes the module table exactly when the successor's name was never registered. */
  lemma LookupPollutesOnlyUnknownNames<T>(calls: seq<Call<T>>, name: string, state: ModState)
    ensures var t := ConfigureAll(EmptyTables(), calls);
            Successor(t, name, state).Some? ==>
              var succ := Successor(t, name, state).value;
              Insert(t.mods, succ, None) != t.mods <==> EarliestAdd(calls, succ) == None
  {
    var t := ConfigureAll(EmptyTables(), calls);
    if Successor(t, name, state).Some? {
      var succ := Successor(t, name, state).value;
      TablesHoldEarliest(calls, succ, state);
      if succ !in t.mods {
        assert succ in Insert(t.mods, succ, None);
      }
    }
  }
}
