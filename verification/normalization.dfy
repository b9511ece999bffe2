/** `normalize_statemachine_config` of states/normalize.py: every transition
    declared anywhere in the configuration tree is expanded into one
    transition per (old leaf, trigger, case), its old state a full path and
    its new states resolved to leaves, and the results are gathered by old
    state; a repeated (old, new, trigger) is refused. */
module Normalization {
  import opened Wrappers
  import opened PathTools
  import opened Trace
  import opened StateTree
  import opened Normalize

  /** The `state` of a case: a list of names, something that is not a list
      (concatenating it to a list fails), or missing. */
  datatype CaseTarget = Names(names: seq<string>) | NotAList | NoState

  /** A case dictionary, as `case` and `default_case` build it. */
  datatype CaseConfig = CaseConfig(state: CaseTarget, condition: seq<Callback>, onTransfer: seq<Callback>, info: Option<string>)

  /** An element of a listified `new_state`: a state name, a list of cases,
      or a single case dictionary. */
  datatype NewEntry = Target(name: string) | Cases(cases: seq<CaseConfig>) | Mapping

  /** A declared transition after `listify_by_keys`; an absent condition is
      the empty list. */
  datatype TransitionConfig = TransitionConfig(
    oldStates: seq<string>, newStates: seq<NewEntry>, triggers: seq<string>,
    onTransfer: seq<Callback>, condition: seq<Callback>, info: Option<string>)

  /** A normalised transition: a full old-state name and the resolved
      new-state names. */
  datatype NormTransition = NormTransition(
    oldState: string, newState: seq<string>, trigger: string,
    onTransfer: seq<Callback>, condition: seq<Callback>, info: Option<string>)

  /* ---------- concatenating the results of a loop ---------- */

  /** The results of `f` on each element in turn, concatenated; the first
      failure is the result. */
  function Concat<T, U>(xs: seq<T>, f: T -> Result<seq<U>>): Result<seq<U>>
  {
    if |xs| == 0 then Ok([])
    else
      var init :- Concat(xs[..|xs| - 1], f);
      var last :- f(xs[|xs| - 1]);
      Ok(init + last)
  }

  lemma ConcatStep<T, U>(xs: seq<T>, i: nat, f: T -> Result<seq<U>>)
    requires i < |xs|
    ensures Concat(xs[..i + 1], f) ==
            (var a :- Concat(xs[..i], f); var b :- f(xs[i]); Ok(a + b))
  {
    assert xs[..i + 1][..i] == xs[..i];
  }

  /** A failure on a prefix is the failure of the whole. */
  lemma {:induction false} ConcatFailEarly<T, U>(xs: seq<T>, k: nat, f: T -> Result<seq<U>>)
    requires k <= |xs| && Concat(xs[..k], f).Err?
    ensures Concat(xs, f) == Concat(xs[..k], f)
  {
    if k < |xs| {
      var init := xs[..|xs| - 1];
      assert init[..k] == xs[..k];
      ConcatFailEarly(init, k, f);
    } else {
      assert xs[..k] == xs;
    }
  }

  /** The concatenation succeeds exactly when every step does, and each
      element of it comes from one step. */
  lemma {:induction false} ConcatMember<T, U>(xs: seq<T>, f: T -> Result<seq<U>>)
    ensures Concat(xs, f).Ok? <==> forall i :: 0 <= i < |xs| ==> f(xs[i]).Ok?
    ensures Concat(xs, f).Ok? ==> forall y :: y in Concat(xs, f).value ==>
              exists i :: 0 <= i < |xs| && f(xs[i]).Ok? && y in f(xs[i]).value
  {
    if |xs| > 0 {
      var init := xs[..|xs| - 1];
      ConcatMember(init, f);
      assert forall i :: 0 <= i < |init| ==> init[i] == xs[i];
    }
  }

  /** Steps that each give `m` results give `m` results per element in
      all. */
  lemma {:induction false} ConcatUniform<T, U>(xs: seq<T>, f: T -> Result<seq<U>>, m: nat)
    requires forall i :: 0 <= i < |xs| ==> f(xs[i]).Ok? && |f(xs[i]).value| == m
    ensures Concat(xs, f).Ok? && |Concat(xs, f).value| == |xs| * m
  {
    if |xs| > 0 {
      var n := |xs| - 1;
      var init := xs[..n];
      assert forall i :: 0 <= i < n ==> init[i] == xs[i];
      ConcatUniform(init, f, m);
      MulSucc(n, m);
    }
  }

  /** Steps that each give one result give, in all, the results of the
      elements in order. */
  lemma {:induction false} ConcatSingles<T, U>(xs: seq<T>, f: T -> Result<seq<U>>)
    requires forall i :: 0 <= i < |xs| ==> f(xs[i]).Ok? && |f(xs[i]).value| == 1
    ensures Concat(xs, f).Ok? && |Concat(xs, f).value| == |xs|
    ensures forall i :: 0 <= i < |xs| ==> Concat(xs, f).value[i] == f(xs[i]).value[0]
  {
    if |xs| > 0 {
      var init := xs[..|xs| - 1];
      assert forall i :: 0 <= i < |init| ==> init[i] == xs[i];
      ConcatSingles(init, f);
    }
  }

  lemma MulSucc(n: nat, m: nat)
    ensures (n + 1) * m == n * m + m
  {
  }

  /* ---------- config_getter, state_getter and initial_state ---------- */

  /** `initial_state`: the full path of the state found, followed down its
      first sub-states to a leaf, as a name. */
  function InitialStateOf(tree: NamedTree, at: Path, name: string): Result<string>
  {
    var q :- Resolve(tree, at, Parse(name));
    Ok(Print(q + FirstLeafPath(ConfigAt(tree, q).value)))
  }

  /** A path of the tree that ends in a leaf. */
  predicate LeafAt(tree: StateNode, p: Path)
  {
    ConfigAt(tree, p).Ok? && IsLeaf(ConfigAt(tree, p).value)
  }

  /** An initial state names a leaf of the tree. */
  lemma InitialStateIsLeaf(tree: NamedTree, at: Path, name: string)
    requires InitialStateOf(tree, at, name).Ok?
    ensures LeafAt(tree, Parse(InitialStateOf(tree, at, name).value))
  {
    var q := Resolve(tree, at, Parse(name)).value;
    var s := ConfigAt(tree, q).value;
    var f := FirstLeafPath(s);
    ConfigAtWellFormed(tree, q);
    ConfigAtBounds(tree, q);
    FirstLeafPathWellFormed(s);
    assert WellFormed(q + f);
    ParsePrint(q + f);
    ConfigAtConcat(tree, q, f);
    FirstLeafPathLeads(s);
  }

  /** `initial_state` with its descent loop. */
  method InitialState(tree: NamedTree, at: Path, name: string) returns (r: Result<string>)
    ensures r == InitialStateOf(tree, at, name)
  {
    var found := FindConfig(tree, at, Parse(name));
    if found.Err? {
      return Err(found.error);
    }
    var path := found.value;
    var config := ConfigAt(tree, path).value;
    ConfigAtBounds(tree, path);
    while |config.subs| > 0
      invariant WellNamed(config)
      invariant path + FirstLeafPath(config) == found.value + FirstLeafPath(ConfigAt(tree, found.value).value)
      decreases Height(config)
    {
      var first := config.subs[0].name;
      CanonicalNameParses(first);
      assert path + FirstLeafPath(config) == (path + [Key(first)]) + FirstLeafPath(config.subs[0]);
      path := Add(path, StrArg(first));
      config := config.subs[0];
    }
    assert path + [] == path;
    r := Ok(Print(path));
  }

  /** The initial states of the given names, in order; the first failure is
      the result. */
  function InitialStates(tree: NamedTree, at: Path, names: seq<string>): (r: Result<seq<string>>)
    ensures r.Ok? ==> |r.value| == |names| &&
                      forall i :: 0 <= i < |names| ==> InitialStateOf(tree, at, names[i]) == Ok(r.value[i])
    ensures r.Err? ==> r.error == MachineError
  {
    if |names| == 0 then Ok([])
    else
      assert forall i :: 0 <= i < |names| - 1 ==> names[..|names| - 1][i] == names[i];
      var init :- InitialStates(tree, at, names[..|names| - 1]);
      var last :- InitialStateOf(tree, at, names[|names| - 1]);
      Ok(init + [last])
  }

  /* ---------- validate_states and create_new ---------- */

  /** What `validate_states` accepts: new states without `*`, and every
      state found from the root. */
  predicate StatesValid(tree: StateNode, oldName: string, news: seq<string>)
  {
    (forall i :: 0 <= i < |news| ==> '*' !in news[i]) &&
    ConfigAt(tree, Parse(oldName)).Ok? &&
    forall i :: 0 <= i < |news| ==> ConfigAt(tree, Parse(news[i])).Ok?
  }

  /** The first loop of `validate_states`: no new state has a wildcard. */
  method CheckNewStates(news: seq<string>) returns (r: Result<()>)
    ensures r.Ok? <==> forall i :: 0 <= i < |news| ==> '*' !in news[i]
    ensures r.Err? ==> r.error == MachineError
  {
    for i := 0 to |news|
      invariant forall j :: 0 <= j < i ==> '*' !in news[j]
    {
      var v := ValidateNewState(Name(news[i]));
      if v.Err? {
        return Err(v.error);
      }
    }
    r := Ok(());
  }

  /** The second loop of `validate_states`: every state is found from the
      root. */
  method CheckFound(tree: StateNode, all: seq<string>) returns (r: Result<()>)
    ensures r.Ok? <==> forall i :: 0 <= i < |all| ==> ConfigAt(tree, Parse(all[i])).Ok?
    ensures r.Err? ==> r.error == MachineError
  {
    for i := 0 to |all|
      invariant forall j :: 0 <= j < i ==> ConfigAt(tree, Parse(all[j])).Ok?
    {
      var root: Path := [];
      var found := FindConfig(tree, root, Parse(all[i]));
      assert root[..0] + Parse(all[i]) == Parse(all[i]);
      if found.Err? {
        return Err(found.error);
      }
    }
    r := Ok(());
  }

  /** `validate_states` with its two loops. */
  method ValidateStates(tree: StateNode, oldName: string, news: seq<string>) returns (r: Result<()>)
    ensures r.Ok? <==> StatesValid(tree, oldName, news)
    ensures r.Err? ==> r.error == MachineError
  {
    r := CheckNewStates(news);
    if r.Err? {
      return;
    }
    var all := [oldName] + news;
    r := CheckFound(tree, all);
    assert forall j :: 0 <= j < |news| ==> all[j + 1] == news[j];
    assert all[0] == oldName;
    if r.Err? {
      var i :| 0 <= i < |all| && ConfigAt(tree, Parse(all[i])).Err?;
      assert i == 0 || all[i] == news[i - 1];
    }
  }

  /** The info of a cased transition: the case's, else the transition's,
      else empty. */
  function CaseInfo(c: CaseConfig, tc: TransitionConfig): string
  {
    if c.info.Some? then c.info.value else if tc.info.Some? then tc.info.value else ""
  }

  /** `create_new`: the new states resolved to leaves and validated; a case
      adds its `on_transfer`, its info and its condition, and is refused
      when the transition has a condition of its own. */
  function CreateNewOf(tree: NamedTree, at: Path, tc: TransitionConfig, oldName: string, names: seq<string>,
                       trigger: string, c: Option<CaseConfig>): (r: Result<NormTransition>)
    ensures r.Ok? ==> r.value.oldState == oldName && r.value.trigger == trigger &&
                      StatesValid(tree, oldName, r.value.newState) && InitialStates(tree, at, names) == Ok(r.value.newState)
    ensures r.Ok? && c.None? ==> r.value.condition == tc.condition && r.value.onTransfer == tc.onTransfer
    ensures r.Ok? && c.Some? ==> |tc.condition| == 0 && r.value.condition == c.value.condition &&
                                 r.value.onTransfer == tc.onTransfer + c.value.onTransfer
    ensures c.Some? && |tc.condition| > 0 ==> r.Err?
  {
    var news :- InitialStates(tree, at, names);
    if !StatesValid(tree, oldName, news) then Err(MachineError)
    else if c.Some? then
      if |tc.condition| > 0 then Err(MachineError)
      else Ok(NormTransition(oldName, news, trigger, tc.onTransfer + c.value.onTransfer, c.value.condition, Some(CaseInfo(c.value, tc))))
    else Ok(NormTransition(oldName, news, trigger, tc.onTransfer, tc.condition, tc.info))
  }

  /** The initial states of a list of names all name leaves. */
  lemma InitialStatesLeaves(tree: NamedTree, at: Path, names: seq<string>)
    requires InitialStates(tree, at, names).Ok?
    ensures var news := InitialStates(tree, at, names).value;
            forall i :: 0 <= i < |news| ==> LeafAt(tree, Parse(news[i]))
  {
    var news := InitialStates(tree, at, names).value;
    forall i | 0 <= i < |news|
      ensures LeafAt(tree, Parse(news[i]))
    {
      InitialStateIsLeaf(tree, at, names[i]);
    }
  }

  /** The new states of a created transition are leaves of the tree. */
  lemma CreatedLeaves(tree: NamedTree, at: Path, tc: TransitionConfig, oldName: string, names: seq<string>,
                      trigger: string, c: Option<CaseConfig>)
    requires CreateNewOf(tree, at, tc, oldName, names, trigger, c).Ok?
    ensures var t := CreateNewOf(tree, at, tc, oldName, names, trigger, c).value;
            forall i :: 0 <= i < |t.newState| ==> LeafAt(tree, Parse(t.newState[i]))
  {
    InitialStatesLeaves(tree, at, names);
  }

  /** A failure on a prefix of the names is the failure of them all. */
  lemma {:induction false} InitialStatesFailEarly(tree: NamedTree, at: Path, names: seq<string>, k: nat)
    requires k <= |names| && InitialStates(tree, at, names[..k]).Err?
    ensures InitialStates(tree, at, names) == InitialStates(tree, at, names[..k])
  {
    if k < |names| {
      var init := names[..|names| - 1];
      assert init[..k] == names[..k];
      InitialStatesFailEarly(tree, at, init, k);
    } else {
      assert names[..k] == names;
    }
  }

  /** The list comprehension of `create_new` over the new states. */
  method ResolveNewStates(tree: NamedTree, at: Path, names: seq<string>) returns (r: Result<seq<string>>)
    ensures r == InitialStates(tree, at, names)
  {
    var news: seq<string> := [];
    for i := 0 to |names|
      invariant InitialStates(tree, at, names[..i]) == Ok(news)
    {
      assert names[..i + 1][..i] == names[..i];
      var s := InitialState(tree, at, names[i]);
      if s.Err? {
        InitialStatesFailEarly(tree, at, names, i + 1);
        return Err(s.error);
      }
      news := news + [s.value];
    }
    assert names[..|names|] == names;
    r := Ok(news);
  }

  /** `create_new`. */
  method CreateNew(tree: NamedTree, at: Path, tc: TransitionConfig, oldName: string, names: seq<string>,
                   trigger: string, c: Option<CaseConfig>) returns (r: Result<NormTransition>)
    ensures r == CreateNewOf(tree, at, tc, oldName, names, trigger, c)
  {
    var news := ResolveNewStates(tree, at, names);
    if news.Err? {
      return Err(news.error);
    }
    var valid := ValidateStates(tree, oldName, news.value);
    if valid.Err? {
      return Err(valid.error);
    }
    if c.Some? {
      if |tc.condition| > 0 {
        return Err(MachineError);
      }
      r := Ok(NormTransition(oldName, news.value, trigger, tc.onTransfer + c.value.onTransfer, c.value.condition, Some(CaseInfo(c.value, tc))));
    } else {
      r := Ok(NormTransition(oldName, news.value, trigger, tc.onTransfer, tc.condition, tc.info));
    }
  }

  /* ---------- expand_transitions ---------- */

  /** The names of entries that are all names. */
  function TargetNames(n: seq<NewEntry>): (r: seq<string>)
    requires forall i :: 0 <= i < |n| ==> n[i].Target?
    ensures |r| == |n| && forall i :: 0 <= i < |n| ==> r[i] == n[i].name
  {
    seq(|n|, i requires 0 <= i < |n| => n[i].name)
  }

  /** One case of a switched transition: its `state` list follows the names
      before the case list. */
  function CaseOut(tree: NamedTree, at: Path, tc: TransitionConfig, oldPath: Path, trigger: string,
                   prefix: seq<string>, c: CaseConfig): Result<seq<NormTransition>>
  {
    match c.state
    case NoState => Err(KeyError)
    case NotAList => Err(TypeError)
    case Names(ns) =>
      var t :- CreateNewOf(tree, at, tc, Print(oldPath), prefix + ns, trigger, Some(c));
      Ok([t])
  }

  function CaseStep(tree: NamedTree, at: Path, tc: TransitionConfig, oldPath: Path, trigger: string,
                    prefix: seq<string>): CaseConfig -> Result<seq<NormTransition>>
  {
    c => CaseOut(tree, at, tc, oldPath, trigger, prefix, c)
  }

  /** Only the last new state may be a case list or dictionary. */
  predicate OnlyLastSwitched(n: seq<NewEntry>)
  {
    forall i :: 0 <= i < |n| - 1 ==> n[i].Target?
  }

  /** The transitions for one old path and one trigger: one per case when
      the last new state is a case list, else one. */
  function PairOut(tree: NamedTree, at: Path, tc: TransitionConfig, oldPath: Path, trigger: string): Result<seq<NormTransition>>
  {
    var n := tc.newStates;
    if !OnlyLastSwitched(n) then Err(MachineError)
    else if |n| > 0 && n[|n| - 1].Cases? then
      Concat(n[|n| - 1].cases, CaseStep(tree, at, tc, oldPath, trigger, TargetNames(n[..|n| - 1])))
    else if |n| > 0 && n[|n| - 1].Mapping? then Err(MachineError)
    else
      var t :- CreateNewOf(tree, at, tc, Print(oldPath), TargetNames(n), trigger, None);
      Ok([t])
  }

  function PairStep(tree: NamedTree, at: Path, tc: TransitionConfig, oldPath: Path): string -> Result<seq<NormTransition>>
  {
    g => PairOut(tree, at, tc, oldPath, g)
  }

  function OldStep(tree: NamedTree, at: Path, tc: TransitionConfig): Path -> Result<seq<NormTransition>>
  {
    o => Concat(tc.triggers, PairStep(tree, at, tc, o))
  }

  /** The old paths of a transition declared at `at`: its old states with
      wildcards expanded and extended to leaves, below `at`. */
  function OldPaths(tree: NamedTree, at: Path, tc: TransitionConfig): Result<seq<Path>>
  {
    Expanded(tc.oldStates, ConfigGetter(tree, at), at, true)
  }

  /** The body of the loop over a state's transitions in
      `expand_transitions`: old paths outermost, then triggers, then cases. */
  function ExpandOne(tree: NamedTree, at: Path, tc: TransitionConfig): Result<seq<NormTransition>>
  {
    var olds :- OldPaths(tree, at, tc);
    Concat(olds, OldStep(tree, at, tc))
  }

  /** The loop over the cases of a switched transition. */
  method ExpandCases(tree: NamedTree, at: Path, tc: TransitionConfig, oldPath: Path, trigger: string,
                     prefix: seq<string>, cases: seq<CaseConfig>) returns (r: Result<seq<NormTransition>>)
    ensures r == Concat(cases, CaseStep(tree, at, tc, oldPath, trigger, prefix))
  {
    var out: seq<NormTransition> := [];
    for k := 0 to |cases|
      invariant Concat(cases[..k], CaseStep(tree, at, tc, oldPath, trigger, prefix)) == Ok(out)
    {
      ConcatStep(cases, k, CaseStep(tree, at, tc, oldPath, trigger, prefix));
      var c := cases[k];
      var t: Result<NormTransition>;
      match c.state {
        case NoState =>
          t := Err(KeyError);
        case NotAList =>
          t := Err(TypeError);
        case Names(ns) =>
          t := CreateNew(tree, at, tc, Print(oldPath), prefix + ns, trigger, Some(c));
      }
      if t.Err? {
        ConcatFailEarly(cases, k + 1, CaseStep(tree, at, tc, oldPath, trigger, prefix));
        return Err(t.error);
      }
      out := out + [t.value];
    }
    assert cases[..|cases|] == cases;
    r := Ok(out);
  }

  /** The check inside the trigger loop of `normalize_transitions`
      (states/normalize.py:216-219) that every new state but the last is a
      name. */
  method CheckOnlyLastSwitched(n: seq<NewEntry>) returns (ok: bool)
    ensures ok <==> OnlyLastSwitched(n)
  {
    var i := 0;
    while i < |n| - 1
      invariant 0 <= i && (i <= |n| - 1 || i == 0)
      invariant forall j :: 0 <= j < i ==> n[j].Target?
    {
      if !n[i].Target? {
        return false;
      }
      i := i + 1;
    }
    return true;
  }

  /** The body of the trigger loop. */
  method ExpandPair(tree: NamedTree, at: Path, tc: TransitionConfig, oldPath: Path, trigger: string)
    returns (r: Result<seq<NormTransition>>)
    ensures r == PairOut(tree, at, tc, oldPath, trigger)
  {
    var n := tc.newStates;
    var ok := CheckOnlyLastSwitched(n);
    if !ok {
      return Err(MachineError);
    }
    if |n| > 0 && n[|n| - 1].Cases? {
      r := ExpandCases(tree, at, tc, oldPath, trigger, TargetNames(n[..|n| - 1]), n[|n| - 1].cases);
    } else if |n| > 0 && n[|n| - 1].Mapping? {
      r := Err(MachineError);
    } else {
      var t := CreateNew(tree, at, tc, Print(oldPath), TargetNames(n), trigger, None);
      if t.Err? {
        return Err(t.error);
      }
      r := Ok([t.value]);
    }
  }

  /** The trigger loop for one old path. */
  method ExpandOld(tree: NamedTree, at: Path, tc: TransitionConfig, oldPath: Path) returns (r: Result<seq<NormTransition>>)
    ensures r == Concat(tc.triggers, PairStep(tree, at, tc, oldPath))
  {
    var out: seq<NormTransition> := [];
    for j := 0 to |tc.triggers|
      invariant Concat(tc.triggers[..j], PairStep(tree, at, tc, oldPath)) == Ok(out)
    {
      ConcatStep(tc.triggers, j, PairStep(tree, at, tc, oldPath));
      var row := ExpandPair(tree, at, tc, oldPath, tc.triggers[j]);
      if row.Err? {
        ConcatFailEarly(tc.triggers, j + 1, PairStep(tree, at, tc, oldPath));
        return Err(row.error);
      }
      out := out + row.value;
    }
    assert tc.triggers[..|tc.triggers|] == tc.triggers;
    r := Ok(out);
  }

  /** The loop over the old paths of one declared transition. */
  method ExpandOlds(tree: NamedTree, at: Path, tc: TransitionConfig, olds: seq<Path>) returns (r: Result<seq<NormTransition>>)
    ensures r == Concat(olds, OldStep(tree, at, tc))
  {
    var out: seq<NormTransition> := [];
    for i := 0 to |olds|
      invariant Concat(olds[..i], OldStep(tree, at, tc)) == Ok(out)
    {
      ConcatStep(olds, i, OldStep(tree, at, tc));
      var row := ExpandOld(tree, at, tc, olds[i]);
      if row.Err? {
        ConcatFailEarly(olds, i + 1, OldStep(tree, at, tc));
        return Err(row.error);
      }
      out := out + row.value;
    }
    assert olds[..|olds|] == olds;
    r := Ok(out);
  }

  /** `get_expanded_paths` on the old states of a transition, with the
      getter of the state that declares it. */
  method ExpandOldStates(tree: NamedTree, at: Path, tc: TransitionConfig) returns (r: Result<seq<Path>>)
    ensures r == OldPaths(tree, at, tc)
  {
    r := GetExpandedPaths(tc.oldStates, ConfigGetter(tree, at), at, true);
  }

  /** One declared transition: the expansion of its old states, then the
      loops over old paths and triggers. */
  method ExpandTransition(tree: NamedTree, at: Path, tc: TransitionConfig) returns (r: Result<seq<NormTransition>>)
    ensures r == ExpandOne(tree, at, tc)
  {
    var olds := ExpandOldStates(tree, at, tc);
    if olds.Err? {
      return Err(olds.error);
    }
    r := ExpandOlds(tree, at, tc, olds.value);
  }

  /* ---------- gather_transitions ---------- */

  /** `iter_configs`: the path of every state of the configuration, each
      state before its sub-states, the sub-states in declaration order. */
  function ConfigPaths(t: StateNode): (r: seq<Path>)
    ensures |r| > 0 && r[0] == []
    decreases t, 1
  {
    [[]] + SubPaths(t, |t.subs|)
  }

  /** The paths below the first `n` sub-states of `t`, from `t`. */
  function SubPaths(t: StateNode, n: nat): seq<Path>
    requires n <= |t.subs|
    decreases t, 0, n
  {
    if n == 0 then []
    else SubPaths(t, n - 1) + Prefixed([Key(t.subs[n - 1].name)], ConfigPaths(t.subs[n - 1]))
  }

  /** Every path `iter_configs` yields names a state of the configuration. */
  lemma {:induction false} ConfigPathsFound(t: StateNode)
    requires WellNamed(t)
    ensures forall i :: 0 <= i < |ConfigPaths(t)| ==> ConfigAt(t, ConfigPaths(t)[i]).Ok?
    decreases t, 1
  {
    SubPathsFound(t, |t.subs|);
  }

  lemma {:induction false} SubPathsFound(t: StateNode, n: nat)
    requires WellNamed(t) && n <= |t.subs|
    ensures forall i :: 0 <= i < |SubPaths(t, n)| ==> ConfigAt(t, SubPaths(t, n)[i]).Ok?
    decreases t, 0, n
  {
    if n > 0 {
      SubPathsFound(t, n - 1);
      var c := t.subs[n - 1];
      var k := Key(c.name);
      ConfigPathsFound(c);
      ChildByName(t, n - 1);
      var below := Prefixed([k], ConfigPaths(c));
      forall i | 0 <= i < |below|
        ensures ConfigAt(t, below[i]).Ok?
      {
        ConfigAtConcat(t, [k], ConfigPaths(c)[i]);
      }
    }
  }

  /** The transitions declared in the configuration of each state, by path;
      a state without any is absent. */
  type Declared = map<Path, seq<TransitionConfig>>

  function DeclaredAt(decl: Declared, p: Path): seq<TransitionConfig>
  {
    if p in decl then decl[p] else []
  }

  function ExpandStep(tree: NamedTree, at: Path): TransitionConfig -> Result<seq<NormTransition>>
  {
    tc => ExpandOne(tree, at, tc)
  }

  /** `expand_transitions` for the state at `at`. */
  function ExpandAt(tree: NamedTree, decl: Declared, at: Path): Result<seq<NormTransition>>
  {
    Concat(DeclaredAt(decl, at), ExpandStep(tree, at))
  }

  function GatherStep(tree: NamedTree, decl: Declared): Path -> Result<seq<NormTransition>>
  {
    at => ExpandAt(tree, decl, at)
  }

  /** The transitions of every state, in the order `iter_configs` visits
      the states. */
  function Gathered(tree: NamedTree, decl: Declared): Result<seq<NormTransition>>
  {
    Concat(ConfigPaths(tree), GatherStep(tree, decl))
  }

  /** What `validate_transitions` compares. */
  function TransitionKey(t: NormTransition): (string, seq<string>, string)
  {
    (t.oldState, t.newState, t.trigger)
  }

  /** No two transitions share old state, new states and trigger. */
  predicate Distinct(ts: seq<NormTransition>)
  {
    forall i, j :: 0 <= i < j < |ts| ==> TransitionKey(ts[i]) != TransitionKey(ts[j])
  }

  /** The key `transitions_dict` files a transition under: its old path. */
  function OldPathOf(t: NormTransition): Path
  {
    Parse(t.oldState)
  }

  /** `normalize_transitions`: the transitions gathered, checked for
      duplicates and filed under their old paths, where `inject_transitions`
      puts them. */
  function Normalized(tree: NamedTree, decl: Declared): Result<map<Path, seq<NormTransition>>>
  {
    var ts :- Gathered(tree, decl);
    if Distinct(ts) then Ok(Grouping(ts, OldPathOf)) else Err(MachineError)
  }

  /** `validate_transitions`, with its set of keys seen. */
  method ValidateTransitions(ts: seq<NormTransition>) returns (r: Result<()>)
    ensures r.Ok? <==> Distinct(ts)
    ensures r.Err? ==> r.error == MachineError
  {
    var seen: set<(string, seq<string>, string)> := {};
    for i := 0 to |ts|
      invariant Distinct(ts[..i])
      invariant seen == set j | 0 <= j < i :: TransitionKey(ts[j])
    {
      var key := TransitionKey(ts[i]);
      if key in seen {
        var j :| 0 <= j < i && TransitionKey(ts[j]) == key;
        assert TransitionKey(ts[j]) == TransitionKey(ts[i]);
        return Err(MachineError);
      }
      seen := seen + {key};
    }
    assert ts[..|ts|] == ts;
    r := Ok(());
  }

  /** `expand_transitions` with its loop over the declared transitions. */
  method ExpandTransitions(tree: NamedTree, decl: Declared, at: Path) returns (r: Result<seq<NormTransition>>)
    ensures r == ExpandAt(tree, decl, at)
  {
    var tcs := DeclaredAt(decl, at);
    var out: seq<NormTransition> := [];
    for i := 0 to |tcs|
      invariant Concat(tcs[..i], ExpandStep(tree, at)) == Ok(out)
    {
      ConcatStep(tcs, i, ExpandStep(tree, at));
      var row := ExpandTransition(tree, at, tcs[i]);
      if row.Err? {
        ConcatFailEarly(tcs, i + 1, ExpandStep(tree, at));
        return Err(row.error);
      }
      out := out + row.value;
    }
    assert tcs[..|tcs|] == tcs;
    r := Ok(out);
  }

  /** `gather_transitions` before validation: the loop over `iter_configs`. */
  method GatherTransitions(tree: NamedTree, decl: Declared) returns (r: Result<seq<NormTransition>>)
    ensures r == Gathered(tree, decl)
  {
    var paths := ConfigPaths(tree);
    var out: seq<NormTransition> := [];
    for i := 0 to |paths|
      invariant Concat(paths[..i], GatherStep(tree, decl)) == Ok(out)
    {
      ConcatStep(paths, i, GatherStep(tree, decl));
      var row := ExpandTransitions(tree, decl, paths[i]);
      if row.Err? {
        ConcatFailEarly(paths, i + 1, GatherStep(tree, decl));
        return Err(row.error);
      }
      out := out + row.value;
    }
    assert paths[..|paths|] == paths;
    r := Ok(out);
  }

  /** `normalize_transitions`: gather, validate, and file the transitions
      under their old paths. */
  method NormalizeTransitions(tree: NamedTree, decl: Declared) returns (r: Result<map<Path, seq<NormTransition>>>)
    ensures r == Normalized(tree, decl)
  {
    var ts := GatherTransitions(tree, decl);
    if ts.Err? {
      return Err(ts.error);
    }
    var valid := ValidateTransitions(ts.value);
    if valid.Err? {
      return Err(MachineError);
    }
    var filed := GroupBy(ts.value, OldPathOf);
    r := Ok(filed);
  }

  /* ---------- what normalisation guarantees ---------- */

  /** A normalised transition: its old state is the name of a leaf path,
      and its new states are leaf names without wildcard. */
  predicate NormalOK(tree: StateNode, t: NormTransition)
  {
    LeafAt(tree, OldPathOf(t)) && Print(OldPathOf(t)) == t.oldState &&
    forall i :: 0 <= i < |t.newState| ==> '*' !in t.newState[i] && LeafAt(tree, Parse(t.newState[i]))
  }

  /** An expanded old path found from the root is the leaf it was expanded
      to, and names itself. */
  lemma OldPathIsLeaf(tree: NamedTree, at: Path, x: Path)
    requires ConfigAt(tree, at).Ok? && ExpandedPath(x, at, ConfigGetter(tree, at), true)
    requires ConfigAt(tree, Parse(Print(x))).Ok?
    ensures LeafAt(tree, x) && Parse(Print(x)) == x
  {
    var tail := x[|at|..];
    assert x == at + tail;
    var q := Resolve(tree, at, tail).value;
    var head := at[..|q| - |tail|];
    assert q == head + tail;
    ConfigAtWellFormed(tree, q);
    ConfigAtWellFormed(tree, at);
    ConcatWellFormed(head, tail);
    assert WellFormed(tail);
    ConcatWellFormed(at, tail);
    assert WellFormed(x);
    ParsePrint(x);
  }

  /** Every transition `create_new` makes from an expanded old path is
      normalised. */
  lemma CreatedOK(tree: NamedTree, at: Path, tc: TransitionConfig, x: Path, names: seq<string>,
                  trigger: string, c: Option<CaseConfig>)
    requires ConfigAt(tree, at).Ok? && ExpandedPath(x, at, ConfigGetter(tree, at), true)
    requires CreateNewOf(tree, at, tc, Print(x), names, trigger, c).Ok?
    ensures NormalOK(tree, CreateNewOf(tree, at, tc, Print(x), names, trigger, c).value)
  {
    CreatedLeaves(tree, at, tc, Print(x), names, trigger, c);
    OldPathIsLeaf(tree, at, x);
  }

  lemma CasesOK(tree: NamedTree, at: Path, tc: TransitionConfig, x: Path, trigger: string,
                prefix: seq<string>, cases: seq<CaseConfig>)
    requires ConfigAt(tree, at).Ok? && ExpandedPath(x, at, ConfigGetter(tree, at), true)
    requires Concat(cases, CaseStep(tree, at, tc, x, trigger, prefix)).Ok?
    ensures forall y :: y in Concat(cases, CaseStep(tree, at, tc, x, trigger, prefix)).value ==> NormalOK(tree, y)
  {
    var f := CaseStep(tree, at, tc, x, trigger, prefix);
    ConcatMember(cases, f);
    forall y | y in Concat(cases, f).value
      ensures NormalOK(tree, y)
    {
      var i :| 0 <= i < |cases| && f(cases[i]).Ok? && y in f(cases[i]).value;
      CreatedOK(tree, at, tc, x, prefix + cases[i].state.names, trigger, Some(cases[i]));
    }
  }

  lemma PairOutOK(tree: NamedTree, at: Path, tc: TransitionConfig, x: Path, trigger: string)
    requires ConfigAt(tree, at).Ok? && ExpandedPath(x, at, ConfigGetter(tree, at), true)
    requires PairOut(tree, at, tc, x, trigger).Ok?
    ensures forall y :: y in PairOut(tree, at, tc, x, trigger).value ==> NormalOK(tree, y)
  {
    var n := tc.newStates;
    PairOutShape(tree, at, tc, x, trigger);
    if |n| > 0 && n[|n| - 1].Cases? {
      CasesOK(tree, at, tc, x, trigger, TargetNames(n[..|n| - 1]), n[|n| - 1].cases);
    } else {
      AllTargets(n);
      CreatedOK(tree, at, tc, x, TargetNames(n), trigger, None);
    }
  }

  /** A pair that expands has at most its last new state switched, and
      that one is not a dictionary. */
  lemma PairOutShape(tree: NamedTree, at: Path, tc: TransitionConfig, x: Path, trigger: string)
    requires PairOut(tree, at, tc, x, trigger).Ok?
    ensures OnlyLastSwitched(tc.newStates)
    ensures |tc.newStates| > 0 ==> !tc.newStates[|tc.newStates| - 1].Mapping?
  {
  }

  lemma AllTargets(n: seq<NewEntry>)
    requires OnlyLastSwitched(n) && (|n| == 0 || n[|n| - 1].Target?)
    ensures forall i :: 0 <= i < |n| ==> n[i].Target?
  {
  }

  lemma OldStepOK(tree: NamedTree, at: Path, tc: TransitionConfig, x: Path)
    requires ConfigAt(tree, at).Ok? && ExpandedPath(x, at, ConfigGetter(tree, at), true)
    requires OldStep(tree, at, tc)(x).Ok?
    ensures forall y :: y in OldStep(tree, at, tc)(x).value ==> NormalOK(tree, y)
  {
    var f := PairStep(tree, at, tc, x);
    ConcatMember(tc.triggers, f);
    forall y | y in Concat(tc.triggers, f).value
      ensures NormalOK(tree, y)
    {
      var i :| 0 <= i < |tc.triggers| && f(tc.triggers[i]).Ok? && y in f(tc.triggers[i]).value;
      PairOutOK(tree, at, tc, x, tc.triggers[i]);
    }
  }

  lemma ExpandOneOK(tree: NamedTree, at: Path, tc: TransitionConfig)
    requires ConfigAt(tree, at).Ok? && ExpandOne(tree, at, tc).Ok?
    ensures forall y :: y in ExpandOne(tree, at, tc).value ==> NormalOK(tree, y)
  {
    var olds := OldPaths(tree, at, tc).value;
    ExpandQueueNoWildcard(NamePaths(tc.oldStates), ConfigGetter(tree, at), at, true);
    var f := OldStep(tree, at, tc);
    ConcatMember(olds, f);
    forall y | y in Concat(olds, f).value
      ensures NormalOK(tree, y)
    {
      var i :| 0 <= i < |olds| && f(olds[i]).Ok? && y in f(olds[i]).value;
      OldStepOK(tree, at, tc, olds[i]);
    }
  }

  lemma GatheredOK(tree: NamedTree, decl: Declared)
    requires Gathered(tree, decl).Ok?
    ensures forall y :: y in Gathered(tree, decl).value ==> NormalOK(tree, y)
  {
    var paths := ConfigPaths(tree);
    var f := GatherStep(tree, decl);
    ConfigPathsFound(tree);
    ConcatMember(paths, f);
    forall y | y in Concat(paths, f).value
      ensures NormalOK(tree, y)
    {
      var i :| 0 <= i < |paths| && f(paths[i]).Ok? && y in f(paths[i]).value;
      var tcs := DeclaredAt(decl, paths[i]);
      var g := ExpandStep(tree, paths[i]);
      ConcatMember(tcs, g);
      var j :| 0 <= j < |tcs| && g(tcs[j]).Ok? && y in g(tcs[j]).value;
      ExpandOneOK(tree, paths[i], tcs[j]);
    }
  }

  /** After normalisation every state that has transitions is a leaf, and
      each of its transitions starts there by its full name and ends in
      leaves named without wildcard; no two transitions repeat the same old
      state, new states and trigger. */
  lemma NormalizedLaws(tree: NamedTree, decl: Declared)
    requires Normalized(tree, decl).Ok?
    ensures var r := Normalized(tree, decl).value;
            forall p :: p in r ==>
              LeafAt(tree, p) && |r[p]| > 0 && forall t :: t in r[p] ==> OldPathOf(t) == p && NormalOK(tree, t)
    ensures Distinct(Gathered(tree, decl).value)
  {
    var ts := Gathered(tree, decl).value;
    var r := Normalized(tree, decl).value;
    GatheredOK(tree, decl);
    forall p | p in r
      ensures LeafAt(tree, p) && |r[p]| > 0 && forall t :: t in r[p] ==> OldPathOf(t) == p && NormalOK(tree, t)
    {
      GroupingAt(ts, OldPathOf, p);
      GroupMembers(ts, OldPathOf, p);
      var t := r[p][0];
      assert t in r[p];
    }
  }

  /** Without a case list, a declared transition becomes one transition per
      old path and trigger. */
  lemma ExpandOneCount(tree: NamedTree, at: Path, tc: TransitionConfig)
    requires |tc.newStates| == 0 || tc.newStates[|tc.newStates| - 1].Target?
    requires ExpandOne(tree, at, tc).Ok?
    ensures |ExpandOne(tree, at, tc).value| == |OldPaths(tree, at, tc).value| * |tc.triggers|
  {
    var olds := OldPaths(tree, at, tc).value;
    var f := OldStep(tree, at, tc);
    ConcatMember(olds, f);
    forall i | 0 <= i < |olds|
      ensures f(olds[i]).Ok? && |f(olds[i]).value| == |tc.triggers|
    {
      var g := PairStep(tree, at, tc, olds[i]);
      ConcatMember(tc.triggers, g);
      ConcatUniform(tc.triggers, g, 1);
    }
    ConcatUniform(olds, f, |tc.triggers|);
  }

  /** A case list gives one transition per case, in case order, each with
      the case's condition and the transition's `on_transfer` followed by
      the case's. */
  lemma CasedTransitions(tree: NamedTree, at: Path, tc: TransitionConfig, x: Path, trigger: string)
    requires |tc.newStates| > 0 && tc.newStates[|tc.newStates| - 1].Cases?
    requires PairOut(tree, at, tc, x, trigger).Ok?
    ensures var cases := tc.newStates[|tc.newStates| - 1].cases;
            var ts := PairOut(tree, at, tc, x, trigger).value;
            |ts| == |cases| &&
            forall i :: 0 <= i < |cases| ==>
              ts[i].oldState == Print(x) && ts[i].trigger == trigger && ts[i].condition == cases[i].condition &&
              ts[i].onTransfer == tc.onTransfer + cases[i].onTransfer
  {
    var n := tc.newStates;
    var cases := n[|n| - 1].cases;
    var f := CaseStep(tree, at, tc, x, trigger, TargetNames(n[..|n| - 1]));
    ConcatMember(cases, f);
    ConcatSingles(cases, f);
  }

  /** A switched transition that also has a condition of its own fails
      for every old path and trigger. */
  lemma SwitchedPairFails(tree: NamedTree, at: Path, tc: TransitionConfig, x: Path, trigger: string)
    requires |tc.newStates| > 0 && tc.newStates[|tc.newStates| - 1].Cases?
    requires |tc.newStates[|tc.newStates| - 1].cases| > 0 && |tc.condition| > 0
    ensures PairOut(tree, at, tc, x, trigger).Err?
  {
    var n := tc.newStates;
    if OnlyLastSwitched(n) {
      var cases := n[|n| - 1].cases;
      var f := CaseStep(tree, at, tc, x, trigger, TargetNames(n[..|n| - 1]));
      assert f(cases[0]).Err?;
      ConcatMember(cases, f);
    }
  }

  /** A switched transition that also has a condition of its own is
      refused: it gives no transitions at all unless there is nothing to
      expand. */
  lemma SwitchedConditionRefused(tree: NamedTree, at: Path, tc: TransitionConfig)
    requires |tc.newStates| > 0 && tc.newStates[|tc.newStates| - 1].Cases?
    requires |tc.newStates[|tc.newStates| - 1].cases| > 0 && |tc.condition| > 0
    requires ExpandOne(tree, at, tc).Ok?
    ensures OldPaths(tree, at, tc).value == [] || tc.triggers == []
  {
    var olds := OldPaths(tree, at, tc).value;
    if olds != [] && tc.triggers != [] {
      SwitchedPairFails(tree, at, tc, olds[0], tc.triggers[0]);
      ConcatMember(olds, OldStep(tree, at, tc));
      ConcatMember(tc.triggers, PairStep(tree, at, tc, olds[0]));
      assert false;
    }
  }
}
