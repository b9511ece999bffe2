/** The configuration builders of states/configuration.py. They take loosely
    typed Python values, check their types, and build the dictionaries a
    machine is configured with. Dictionaries keep insertion order, as Python
    dictionaries do. */
module Configuration {
  import opened Wrappers
  import opened Trace

  /** The Python values the builders receive and return. */
  datatype Value =
    | Str(s: string)
    | Dict(entries: seq<(string, Value)>)
    | List(items: seq<Value>)
    | Tuple(items: seq<Value>)
    | NoneValue
    | Func(cb: Callback)

  /** Python truthiness. */
  predicate Truthy(v: Value)
  {
    match v
    case Str(s) => |s| > 0
    case Dict(e) => |e| > 0
    case List(xs) => |xs| > 0
    case Tuple(xs) => |xs| > 0
    case NoneValue => false
    case Func(_) => true
  }

  /** `v or []`. */
  function OrEmptyList(v: Value): (r: Value)
    ensures Truthy(v) ==> r == v
    ensures !Truthy(v) ==> r == List([])
  {
    if Truthy(v) then v else List([])
  }

  /* ---------- insertion-ordered dictionaries ---------- */

  function Keys(entries: seq<(string, Value)>): (r: seq<string>)
    ensures |r| == |entries| && forall i :: 0 <= i < |entries| ==> r[i] == entries[i].0
  {
    if |entries| == 0 then [] else [entries[0].0] + Keys(entries[1..])
  }

  /** `d.get(k)`. */
  function Get(entries: seq<(string, Value)>, k: string): Option<Value>
  {
    if |entries| == 0 then None
    else if entries[0].0 == k then Some(entries[0].1)
    else Get(entries[1..], k)
  }

  /** `d[k] = v`: an existing key keeps its place, a new key goes last. */
  function Set(entries: seq<(string, Value)>, k: string, v: Value): (r: seq<(string, Value)>)
    ensures Get(r, k) == Some(v)
    ensures forall k' :: k' != k ==> Get(r, k') == Get(entries, k')
    ensures Get(entries, k).Some? ==> Keys(r) == Keys(entries)
    ensures Get(entries, k).None? ==> Keys(r) == Keys(entries) + [k]
  {
    if |entries| == 0 then [(k, v)]
    else if entries[0].0 == k then [(k, v)] + entries[1..]
    else [entries[0]] + Set(entries[1..], k, v)
  }

  /** A key's first entry is the one `d.get` finds. */
  lemma {:induction false} GetAt(entries: seq<(string, Value)>, i: nat)
    requires i < |entries|
    requires forall j :: 0 <= j < i ==> entries[j].0 != entries[i].0
    ensures Get(entries, entries[i].0) == Some(entries[i].1)
  {
    if i > 0 {
      GetAt(entries[1..], i - 1);
    }
  }

  /** `d.update(pairs)`. */
  function Update(entries: seq<(string, Value)>, pairs: seq<(string, Value)>): seq<(string, Value)>
    decreases |pairs|
  {
    if |pairs| == 0 then entries else Update(Set(entries, pairs[0].0, pairs[0].1), pairs[1..])
  }

  /** The value the last pair with key `k` gives, if any. */
  function LastValue(pairs: seq<(string, Value)>, k: string): Option<Value>
  {
    if |pairs| == 0 then None
    else if pairs[|pairs| - 1].0 == k then Some(pairs[|pairs| - 1].1)
    else LastValue(pairs[..|pairs| - 1], k)
  }

  /** After an update a key holds the value of its last pair, or keeps its
      old value. */
  lemma {:induction false} UpdateGet(entries: seq<(string, Value)>, pairs: seq<(string, Value)>, k: string)
    ensures Get(Update(entries, pairs), k) ==
            if LastValue(pairs, k).Some? then LastValue(pairs, k) else Get(entries, k)
    decreases |pairs|
  {
    if |pairs| > 0 {
      UpdateGet(Set(entries, pairs[0].0, pairs[0].1), pairs[1..], k);
      LastValueSplit(pairs, k);
    }
  }

  lemma {:induction false} LastValueSplit(pairs: seq<(string, Value)>, k: string)
    requires |pairs| > 0
    ensures LastValue(pairs, k) ==
            if LastValue(pairs[1..], k).Some? then LastValue(pairs[1..], k)
            else if pairs[0].0 == k then Some(pairs[0].1) else None
  {
    if |pairs| > 1 {
      var init := pairs[..|pairs| - 1];
      assert pairs[1..][..|pairs| - 2] == init[1..];
      if pairs[|pairs| - 1].0 != k {
        LastValueSplit(init, k);
      }
    }
  }

  /* ---------- the builders ---------- */

  /** `state()`: the configuration of a state; one with sub-states keeps
      its transitions and has no `on_stay`, one without them may not have
      transitions. */
  function State(states: Value, transitions: Value, onEntry: Value, onExit: Value, onStay: Value, info: Value): (r: Result<Value>)
    ensures r.Err? <==> !Truthy(states) && Truthy(transitions)
    ensures r.Err? ==> r.error == MachineError
    ensures r.Ok? && Truthy(states) ==>
      r.value.Dict? && Keys(r.value.entries) == ["states", "transitions", "on_entry", "on_exit", "info"] &&
      Get(r.value.entries, "states") == Some(states) && Get(r.value.entries, "transitions") == Some(transitions)
    ensures r.Ok? && !Truthy(states) ==>
      r.value.Dict? && Keys(r.value.entries) == ["on_entry", "on_exit", "on_stay", "info"] &&
      Get(r.value.entries, "on_stay") == Some(onStay)
    ensures r.Ok? ==> Get(r.value.entries, "on_entry") == Some(onEntry) && Get(r.value.entries, "on_exit") == Some(onExit)
  {
    if Truthy(states) then
      var d := [("states", states), ("transitions", transitions), ("on_entry", onEntry), ("on_exit", onExit), ("info", info)];
      GetAt(d, 0); GetAt(d, 1); GetAt(d, 2); GetAt(d, 3);
      Ok(Dict(d))
    else if Truthy(transitions) then
      Err(MachineError)
    else
      var d := [("on_entry", onEntry), ("on_exit", onExit), ("on_stay", onStay), ("info", info)];
      GetAt(d, 0); GetAt(d, 1); GetAt(d, 2);
      Ok(Dict(d))
  }

  /** `state()` with every argument defaulted: a leaf with empty callbacks. */
  function DefaultState(): (r: Value)
    ensures State(NoneValue, Tuple([]), Tuple([]), Tuple([]), Tuple([]), Str("")) == Ok(r)
  {
    Dict([("on_entry", Tuple([])), ("on_exit", Tuple([])), ("on_stay", Tuple([])), ("info", Str(""))])
  }

  /** `{s: state() for s in names}`. */
  function Defaults(names: seq<string>): seq<(string, Value)>
  {
    if |names| == 0 then [] else Set(Defaults(names[..|names| - 1]), names[|names| - 1], DefaultState())
  }

  lemma {:induction false} DefaultsGet(names: seq<string>, k: string)
    ensures Get(Defaults(names), k) == if k in names then Some(DefaultState()) else None
  {
    if |names| > 0 {
      DefaultsGet(names[..|names| - 1], k);
      assert names == names[..|names| - 1] + [names[|names| - 1]];
    }
  }

  function Strings(vs: seq<Value>): (r: seq<string>)
    requires forall i :: 0 <= i < |vs| ==> vs[i].Str?
    ensures |r| == |vs| && forall i :: 0 <= i < |vs| ==> r[i] == vs[i].s
  {
    if |vs| == 0 then [] else [vs[0].s] + Strings(vs[1..])
  }

  /** `states(*names, **configs)`: every name must be a string and every
      configuration a dictionary; the names get default leaf configurations,
      which the keyword configurations then override or extend. */
  function States(names: seq<Value>, configs: seq<(string, Value)>): (r: Result<Value>)
    ensures r.Err? <==> (exists i :: 0 <= i < |names| && !names[i].Str?) ||
                        (exists i :: 0 <= i < |configs| && !configs[i].1.Dict?)
    ensures r.Err? ==> r.error == MachineError
    ensures r.Ok? ==> r.value.Dict?
  {
    if exists i :: 0 <= i < |names| && !names[i].Str? then Err(MachineError)
    else if exists i :: 0 <= i < |configs| && !configs[i].1.Dict? then Err(MachineError)
    else Ok(Dict(Update(Defaults(Strings(names)), configs)))
  }

  /** A keyword configuration wins over a positional name; a name given only
      positionally gets the default leaf configuration. */
  lemma StatesLookup(names: seq<Value>, configs: seq<(string, Value)>, k: string)
    requires States(names, configs).Ok?
    ensures var d := States(names, configs).value.entries;
            Get(d, k) == if LastValue(configs, k).Some? then LastValue(configs, k)
                         else if Str(k) in names then Some(DefaultState())
                         else None
  {
    var ns := Strings(names);
    UpdateGet(Defaults(ns), configs, k);
    DefaultsGet(ns, k);
    assert k in ns <==> Str(k) in names by {
      if k in ns {
        var i :| 0 <= i < |ns| && ns[i] == k;
        assert names[i] == Str(k);
      }
      if Str(k) in names {
        var i :| 0 <= i < |names| && names[i] == Str(k);
        assert ns[i] == k;
      }
    }
  }

  /** `transitions(*transitions)`: a list of dictionaries. */
  function Transitions(ts: seq<Value>): (r: Result<Value>)
    ensures r.Err? <==> exists i :: 0 <= i < |ts| && !ts[i].Dict?
    ensures r.Ok? ==> r.value == List(ts)
  {
    if exists i :: 0 <= i < |ts| && !ts[i].Dict? then Err(MachineError) else Ok(List(ts))
  }

  /** `transition(...)`: the guard tests `isinstance(new_state, Mapping) and
      case`, and `case` is the always truthy module function, so every
      mapping target raises whatever the condition; missing callbacks and
      conditions become empty lists. */
  function Transition(oldState: Value, newState: Value, trigger: Value, onTransfer: Value, condition: Value, info: Value): (r: Result<Value>)
    ensures r.Err? <==> newState.Dict?
    ensures r.Err? ==> r.error == MachineError
    ensures r.Ok? ==> r.value.Dict? &&
                      Keys(r.value.entries) == ["old_state", "new_state", "trigger", "on_transfer", "condition", "info"]
    ensures r.Ok? ==> Get(r.value.entries, "new_state") == Some(newState)
    ensures r.Ok? ==> Get(r.value.entries, "on_transfer") == Some(if Truthy(onTransfer) then onTransfer else List([]))
    ensures r.Ok? ==> Get(r.value.entries, "condition") == Some(if Truthy(condition) then condition else List([]))
  {
    if newState.Dict? then Err(MachineError)
    else
      var d := [("old_state", oldState), ("new_state", newState), ("trigger", trigger),
                ("on_transfer", OrEmptyList(onTransfer)), ("condition", OrEmptyList(condition)), ("info", info)];
      GetAt(d, 1); GetAt(d, 3); GetAt(d, 4);
      Ok(Dict(d))
  }

  /** A mapping target is refused even without any condition, while a
      switch (a list of cases) is accepted. */
  lemma TransitionRefusesMappings(oldState: Value, trigger: Value, cases: seq<Value>)
    ensures Transition(oldState, Dict([]), trigger, NoneValue, NoneValue, Str("")) == Err(MachineError)
    ensures Transition(oldState, List(cases), trigger, NoneValue, NoneValue, Str("")).Ok?
  {
  }

  /** `switch(*cases)`: a list of dictionaries, in the order given. */
  function Switch(cases: seq<Value>): (r: Result<Value>)
    ensures r.Err? <==> exists i :: 0 <= i < |cases| && !cases[i].Dict?
    ensures r.Ok? ==> r.value == List(cases)
  {
    if exists i :: 0 <= i < |cases| && !cases[i].Dict? then Err(MachineError) else Ok(List(cases))
  }

  /** `case(...)`: keeps the given condition. */
  function Case(state: Value, condition: Value, onTransfer: Value, info: Value): (r: Value)
    ensures r.Dict? && Keys(r.entries) == ["state", "condition", "on_transfer", "info"]
    ensures Get(r.entries, "condition") == Some(condition)
    ensures Get(r.entries, "on_transfer") == Some(OrEmptyList(onTransfer))
  {
    var d := [("state", state), ("condition", condition), ("on_transfer", OrEmptyList(onTransfer)), ("info", info)];
    GetAt(d, 1); GetAt(d, 2);
    Dict(d)
  }

  /** `default_case(...)`: a case whose condition is the empty tuple. */
  function DefaultCase(state: Value, onTransfer: Value, info: Value): (r: Value)
    ensures r.Dict? && Keys(r.entries) == ["state", "condition", "on_transfer", "info"]
    ensures Get(r.entries, "condition") == Some(Tuple([]))
  {
    var d := [("state", state), ("condition", Tuple([])), ("on_transfer", OrEmptyList(onTransfer)), ("info", info)];
    GetAt(d, 1);
    Dict(d)
  }

  /** A default case is a case with an empty, hence falsy, condition: no
      condition is checked before taking it. */
  lemma DefaultCaseIsUnconditioned(state: Value, onTransfer: Value, info: Value)
    ensures DefaultCase(state, onTransfer, info) == Case(state, Tuple([]), onTransfer, info)
    ensures !Truthy(Get(DefaultCase(state, onTransfer, info).entries, "condition").value)
  {
  }
}
