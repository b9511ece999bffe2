/** `standardize_statemachine_config` of states/standardize.py, the older
    normalisation pass. At every state that has sub-states, each declared
    transition is expanded into one transition per (old leaf, trigger,
    case); a conditioned last transition gets a default back to the same
    state; transitions between states below a common state are pushed down
    into that state's configuration with relative names; what stays is
    checked for duplicates and for conditions. The wildcard expansion,
    `validate_new_state` and `get_spliced_path` of this file are the same
    code as in states/normalize.py and are modelled once, in Normalize. */
module Standardize {
  import opened Wrappers
  import opened PathTools
  import opened Trace
  import opened StateTree
  import opened Normalize

  /* ---------- configuration dictionaries ---------- */

  /** An `old_state` or `trigger` value: one name or a list of names. */
  datatype Names = One(name: string) | Many(names: seq<string>)

  /** The keys of a case dictionary besides `state`; a missing key leaves
      the transition's own value in place. */
  datatype CaseBody = CaseBody(condition: Option<seq<Callback>>, onTransfer: Option<seq<Callback>>, info: Option<string>)

  /** An element of a case list (`switch`): its `state`, when the key is
      present, and the other keys. */
  datatype SwitchCase = SwitchCase(state: Option<string>, body: CaseBody)

  /** A `new_state` value: one name, a mapping from state names to case
      dictionaries, or a list of cases. */
  datatype Targets = To(name: string) | CaseMap(entries: seq<(string, CaseBody)>) | CaseList(cases: seq<SwitchCase>)

  /** A transition dictionary with the keys `transition` gives it; callback
      values are lists. */
  datatype TransDict = TransDict(oldState: Names, newState: Targets, trigger: Names,
                                 onTransfer: seq<Callback>, condition: seq<Callback>, info: string)

  /** `listify` of an `old_state` or `trigger` value. */
  function NameList(n: Names): seq<string>
  {
    match n
    case One(s) => [s]
    case Many(ns) => ns
  }

  function OrElse<T>(o: Option<T>, d: T): T
  {
    if o.Some? then o.value else d
  }

  /** A standardised transition: one old state, one new state and one
      trigger, all strings. */
  predicate Plain(x: TransDict)
  {
    x.oldState.One? && x.newState.To? && x.trigger.One?
  }

  /** A name that the drill-down lookup finds at a state without
      sub-states. */
  predicate LeafName(t: StateNode, name: string)
  {
    ConfigAt(t, Parse(name)).Ok? && IsLeaf(ConfigAt(t, Parse(name)).value)
  }

  /* ---------- dotted names ---------- */

  /** `"a.b" + "." + "c"` parses as the two paths one after the other. */
  lemma {:induction false} SplitSep(a: string, b: string)
    ensures Split(a + [Separator] + b) == Split(a) + Split(b)
  {
    if |a| == 0 {
      assert a + [Separator] + b == [Separator] + b;
      assert ([Separator] + b)[1..] == b;
    } else {
      assert (a + [Separator] + b)[0] == a[0];
      assert (a + [Separator] + b)[1..] == a[1..] + [Separator] + b;
      SplitSep(a[1..], b);
    }
  }

  lemma {:induction false} SegmentsConcat(x: seq<string>, y: seq<string>)
    ensures Segments(x + y) == Segments(x) + Segments(y)
  {
    if |x| == 0 {
      assert x + y == y;
    } else {
      assert (x + y)[0] == x[0] && (x + y)[1..] == x[1..] + y;
      SegmentsConcat(x[1..], y);
    }
  }

  lemma ParseSep(a: string, b: string)
    ensures Parse(a + [Separator] + b) == Parse(a) + Parse(b)
  {
    SplitSep(a, b);
    SegmentsConcat(Split(a), Split(b));
  }

  /** A name followed by the names of a path, joined by dots. */
  function Joined(name: string, f: Path): string
  {
    if |f| == 0 then name else name + [Separator] + Print(f)
  }

  /** A name joined to a well-formed path parses as the name's path followed
      by that path. */
  lemma ParseJoined(name: string, f: Path)
    requires WellFormed(f)
    ensures Parse(Joined(name, f)) == Parse(name) + f
  {
    if |f| > 0 {
      ParseSep(name, Print(f));
      ParsePrint(f);
    }
  }

  /** Joining one more name onto the name is joining it onto the path. */
  lemma JoinedStep(s: string, n: string, f: Path)
    ensures Joined(s, [Key(n)] + f) == Joined(s + [Separator] + n, f)
  {
    var p := [Key(n)] + f;
    assert p[0] == Key(n) && p[1..] == f;
    assert SegStrings(p) == [n] + SegStrings(f);
    if |f| > 0 {
      assert Print(p) == n + [Separator] + Print(f);
    }
  }

  /* ---------- initial_state ---------- */

  /** `initial_state`: the name, then the first sub-state at each level down
      to a leaf, joined by dots; a name that is not found raises KeyError. */
  function InitialStateOf(t: StateNode, name: string): Result<string>
  {
    var c :- ConfigAt(t, Parse(name));
    Ok(Joined(name, FirstLeafPath(c)))
  }

  /** `initial_state` with its loop over the first sub-states. */
  method InitialState(t: StateNode, name: string) returns (r: Result<string>)
    ensures r == InitialStateOf(t, name)
  {
    var found := ConfigAt(t, Parse(name));
    if found.Err? {
      return Err(found.error);
    }
    var c := found.value;
    var s := name;
    while |c.subs| > 0
      invariant Joined(s, FirstLeafPath(c)) == Joined(name, FirstLeafPath(found.value))
      decreases c
    {
      var first := c.subs[0].name;
      JoinedStep(s, first, FirstLeafPath(c.subs[0]));
      s := s + [Separator] + first;
      c := c.subs[0];
    }
    r := Ok(s);
  }

  /** The initial state of a name is that name's path followed by the first
      leaf below it, and it names a leaf. */
  lemma InitialStateLeaf(t: NamedTree, name: string)
    requires InitialStateOf(t, name).Ok?
    ensures var c := ConfigAt(t, Parse(name)).value;
            Parse(InitialStateOf(t, name).value) == Parse(name) + FirstLeafPath(c) &&
            LeafName(t, InitialStateOf(t, name).value)
  {
    var q := Parse(name);
    var c := ConfigAt(t, q).value;
    var f := FirstLeafPath(c);
    ConfigAtBounds(t, q);
    FirstLeafPathWellFormed(c);
    ParseJoined(name, f);
    ConfigAtConcat(t, q, f);
    FirstLeafPathLeads(c);
  }

  /* ---------- sub_paths ---------- */

  /** `sub_paths`: the paths from a state to each leaf below it, depth first
      in declaration order; a leaf gives the empty path. */
  function LeafPaths(t: StateNode): seq<Path>
    decreases t
  {
    if |t.subs| == 0 then [[]] else SubLeafPaths(t.subs)
  }

  function SubLeafPaths(ts: seq<StateNode>): seq<Path>
    decreases ts
  {
    if |ts| == 0 then []
    else Prefixed([Key(ts[0].name)], LeafPaths(ts[0])) + SubLeafPaths(ts[1..])
  }

  /** A path below a list of sub-states starts with the name of one of them
      and continues with a leaf path of that one. */
  lemma {:induction false} SubLeafPathsMember(ts: seq<StateNode>, q: Path)
    ensures q in SubLeafPaths(ts) <==>
            exists i :: 0 <= i < |ts| && |q| > 0 && q[0] == Key(ts[i].name) && q[1..] in LeafPaths(ts[i])
  {
    if |ts| > 0 {
      SubLeafPathsMember(ts[1..], q);
      var front := Prefixed([Key(ts[0].name)], LeafPaths(ts[0]));
      if q in front {
        var j :| 0 <= j < |front| && front[j] == q;
        assert q[1..] == LeafPaths(ts[0])[j];
      }
      if |q| > 0 && q[0] == Key(ts[0].name) && q[1..] in LeafPaths(ts[0]) {
        var j :| 0 <= j < |LeafPaths(ts[0])| && LeafPaths(ts[0])[j] == q[1..];
        assert front[j] == q;
      }
      if exists i :: 1 <= i < |ts| && |q| > 0 && q[0] == Key(ts[i].name) && q[1..] in LeafPaths(ts[i]) {
        var i :| 1 <= i < |ts| && |q| > 0 && q[0] == Key(ts[i].name) && q[1..] in LeafPaths(ts[i]);
        assert ts[1..][i - 1] == ts[i];
      }
      if exists i :: 0 <= i < |ts| - 1 && |q| > 0 && q[0] == Key(ts[1..][i].name) && q[1..] in LeafPaths(ts[1..][i]) {
        var i :| 0 <= i < |ts| - 1 && |q| > 0 && q[0] == Key(ts[1..][i].name) && q[1..] in LeafPaths(ts[1..][i]);
        assert ts[1..][i] == ts[i + 1];
      }
    }
  }

  /** `sub_paths` lists exactly the paths that lead to a leaf. */
  lemma {:induction false} LeafPathsExact(t: StateNode, p: Path)
    requires WellNamed(t)
    ensures p in LeafPaths(t) <==> ConfigAt(t, p).Ok? && IsLeaf(ConfigAt(t, p).value)
    decreases t
  {
    if |t.subs| > 0 {
      SubLeafPathsMember(t.subs, p);
      if |p| > 0 {
        var r := SubConfig(t, p[0]);
        if r.Ok? {
          var i :| 0 <= i < |t.subs| && t.subs[i] == r.value;
          LeafPathsExact(t.subs[i], p[1..]);
        }
        if exists i :: 0 <= i < |t.subs| && p[0] == Key(t.subs[i].name) && p[1..] in LeafPaths(t.subs[i]) {
          var i :| 0 <= i < |t.subs| && p[0] == Key(t.subs[i].name) && p[1..] in LeafPaths(t.subs[i]);
          ChildByName(t, i);
          LeafPathsExact(t.subs[i], p[1..]);
        }
      }
    }
  }

  /** `all_states`: the names of the leaves below the state a name finds
      (KeyError when there is none). */
  function AllStatesOf(t: StateNode, name: string): Result<seq<string>>
  {
    var c :- ConfigAt(t, Parse(name));
    var leaves := LeafPaths(c);
    Ok(seq(|leaves|, i requires 0 <= i < |leaves| => Print(Parse(name) + leaves[i])))
  }

  /** Every name `all_states` gives names a leaf below the state. */
  lemma AllStatesLeaves(t: NamedTree, name: string)
    requires AllStatesOf(t, name).Ok?
    ensures var fulls := AllStatesOf(t, name).value;
            forall i :: 0 <= i < |fulls| ==> LeafName(t, fulls[i]) && Parse(name) <= Parse(fulls[i])
  {
    var q := Parse(name);
    var c := ConfigAt(t, q).value;
    var leaves := LeafPaths(c);
    var fulls := AllStatesOf(t, name).value;
    ConfigAtBounds(t, q);
    ParseWellFormed(name);
    forall i | 0 <= i < |fulls|
      ensures LeafName(t, fulls[i]) && Parse(name) <= Parse(fulls[i])
    {
      LeafPathsExact(c, leaves[i]);
      ConfigAtWellFormed(c, leaves[i]);
      ConcatWellFormed(q, leaves[i]);
      ParsePrint(q + leaves[i]);
      ConfigAtConcat(t, q, leaves[i]);
    }
  }

  /* ---------- standardize_transition ---------- */

  /** The case keys of an unswitched target: none. */
  const NoCase := CaseBody(None, None, None)

  /** `transition(old, new, trigger)` updated with the declared
      transition's callbacks and info and then with the case's keys. */
  function Built(oldName: string, newName: string, trigger: string, td: TransDict, c: CaseBody): TransDict
  {
    TransDict(One(oldName), To(newName), One(trigger),
              OrElse(c.onTransfer, td.onTransfer), OrElse(c.condition, td.condition), OrElse(c.info, td.info))
  }

  /** `append_transition`: both states must be found (else MachineError),
      the target must be one name without `*`, and it is replaced by its
      initial state. */
  function Appended(t: NamedTree, oldName: string, newName: string, trigger: string, td: TransDict, c: CaseBody): (r: Result<TransDict>)
    ensures r.Ok? <==> ConfigAt(t, Parse(oldName)).Ok? && ConfigAt(t, Parse(newName)).Ok? && '*' !in newName
    ensures r.Err? ==> r.error == MachineError
    ensures r.Ok? ==> Plain(r.value) && r.value.oldState == One(oldName) && r.value.trigger == One(trigger) &&
                      LeafName(t, r.value.newState.name) && Parse(newName) <= Parse(r.value.newState.name)
  {
    if ConfigAt(t, Parse(oldName)).Err? || ConfigAt(t, Parse(newName)).Err? then Err(MachineError)
    else
      var _ :- ValidateNewState(Name(newName));
      InitialStateLeaf(t, newName);
      Ok(Built(oldName, InitialStateOf(t, newName).value, trigger, td, c))
  }

  /** Every transition generated for one (old leaf, trigger) pair: standard,
      from that leaf, with that trigger, to a leaf. */
  predicate PairMade(t: StateNode, oldName: string, trigger: string, made: seq<TransDict>)
  {
    forall i :: 0 <= i < |made| ==>
      Plain(made[i]) && made[i].oldState == One(oldName) && made[i].trigger == One(trigger) &&
      LeafName(t, made[i].newState.name)
  }

  /** One entry of a case mapping: a transition to the initial state of
      its key, with the case's keys. */
  function MapCase(t: NamedTree, td: TransDict, oldName: string, trigger: string, e: (string, CaseBody)): Result<TransDict>
  {
    Appended(t, oldName, e.0, trigger, td, e.1)
  }

  /** One element of a case list: `case.pop('state')`, which raises
      KeyError when the key is absent, then a transition to the initial
      state of that name, with the other keys. */
  function ListCase(t: NamedTree, td: TransDict, oldName: string, trigger: string, c: SwitchCase): Result<TransDict>
  {
    if c.state.None? then Err(KeyError) else Appended(t, oldName, c.state.value, trigger, td, c.body)
  }

  /** The results of `f` on each element in turn; the first failure is the
      result. */
  function Each<T>(xs: seq<T>, f: T -> Result<TransDict>): (r: Result<seq<TransDict>>)
    ensures r.Ok? ==> |r.value| == |xs| && forall i :: 0 <= i < |xs| ==> f(xs[i]) == Ok(r.value[i])
  {
    if |xs| == 0 then Ok([])
    else
      var init :- Each(xs[..|xs| - 1], f);
      var x :- f(xs[|xs| - 1]);
      assert forall i :: 0 <= i < |xs| - 1 ==> xs[i] == xs[..|xs| - 1][i] && (init + [x])[i] == init[i];
      Ok(init + [x])
  }

  lemma EachStep<T>(xs: seq<T>, i: nat, f: T -> Result<TransDict>)
    requires i < |xs|
    ensures Each(xs[..i + 1], f) == (var a :- Each(xs[..i], f); var b :- f(xs[i]); Ok(a + [b]))
  {
    assert xs[..i + 1][..i] == xs[..i];
  }

  /** A failure on a prefix is the failure of the whole. */
  lemma {:induction false} EachFailEarly<T>(xs: seq<T>, k: nat, f: T -> Result<TransDict>)
    requires k <= |xs| && Each(xs[..k], f).Err?
    ensures Each(xs, f) == Each(xs[..k], f)
  {
    if k < |xs| {
      var init := xs[..|xs| - 1];
      assert init[..k] == xs[..k];
      EachFailEarly(init, k, f);
    } else {
      assert xs[..k] == xs;
    }
  }

  function MapCaseOf(t: NamedTree, td: TransDict, oldName: string, trigger: string): ((string, CaseBody)) -> Result<TransDict>
  {
    e => MapCase(t, td, oldName, trigger, e)
  }

  function ListCaseOf(t: NamedTree, td: TransDict, oldName: string, trigger: string): SwitchCase -> Result<TransDict>
  {
    c => ListCase(t, td, oldName, trigger, c)
  }

  /** The entries of a case mapping in order, one transition each. */
  function MapCases(t: NamedTree, td: TransDict, oldName: string, trigger: string, es: seq<(string, CaseBody)>): (r: Result<seq<TransDict>>)
    ensures r.Ok? ==> |r.value| == |es| && forall i :: 0 <= i < |es| ==> MapCase(t, td, oldName, trigger, es[i]) == Ok(r.value[i])
  {
    Each(es, MapCaseOf(t, td, oldName, trigger))
  }

  /** The elements of a case list in order, one transition each. */
  function ListCases(t: NamedTree, td: TransDict, oldName: string, trigger: string, cs: seq<SwitchCase>): (r: Result<seq<TransDict>>)
    ensures r.Ok? ==> |r.value| == |cs| && forall i :: 0 <= i < |cs| ==> ListCase(t, td, oldName, trigger, cs[i]) == Ok(r.value[i])
  {
    Each(cs, ListCaseOf(t, td, oldName, trigger))
  }

  /** The transitions of one (old leaf, trigger) pair before the default
      rule. `popped` says that the `state` keys of a case list were already
      taken out by an earlier pair, as the code as written does. */
  function Targeted(t: NamedTree, td: TransDict, oldName: string, trigger: string, popped: bool): Result<seq<TransDict>>
  {
    match td.newState
    case To(n) =>
      var x :- Appended(t, oldName, n, trigger, td, NoCase);
      Ok([x])
    case CaseMap(es) => MapCases(t, td, oldName, trigger, es)
    case CaseList(cs) => if popped && |cs| > 0 then Err(KeyError) else ListCases(t, td, oldName, trigger, cs)
  }

  /** What a pair generates is standard, from the leaf and with the trigger
      of the pair, and goes to a leaf; without a case list, or before any
      state was popped, it is one transition per case in case order. */
  lemma TargetedMade(t: NamedTree, td: TransDict, oldName: string, trigger: string, popped: bool)
    requires Targeted(t, td, oldName, trigger, popped).Ok?
    ensures PairMade(t, oldName, trigger, Targeted(t, td, oldName, trigger, popped).value)
    ensures td.newState.To? ==> |Targeted(t, td, oldName, trigger, popped).value| == 1
    ensures td.newState.CaseMap? ==> |Targeted(t, td, oldName, trigger, popped).value| == |td.newState.entries|
    ensures td.newState.CaseList? ==> |Targeted(t, td, oldName, trigger, popped).value| == |td.newState.cases|
  {
    var made := Targeted(t, td, oldName, trigger, popped).value;
    forall i | 0 <= i < |made|
      ensures Plain(made[i]) && made[i].oldState == One(oldName) && made[i].trigger == One(trigger) &&
              LeafName(t, made[i].newState.name)
    {
      match td.newState
      case To(n) =>
      case CaseMap(es) =>
        assert MapCase(t, td, oldName, trigger, es[i]) == Ok(made[i]);
      case CaseList(cs) =>
        assert ListCase(t, td, oldName, trigger, cs[i]) == Ok(made[i]);
    }
  }

  /** The text of the default transition back to the same state. */
  const DefaultInfo := "default transition back to same state"

  /** `append_same_state_transition`. */
  function SameStateDefault(oldName: string, trigger: string): TransDict
  {
    TransDict(One(oldName), To(oldName), One(trigger), [], [], DefaultInfo)
  }

  predicate SelfTransition(x: TransDict)
  {
    x.oldState.One? && x.newState.To? && x.oldState.name == x.newState.name
  }

  /** The check after each pair on `transition_dicts[-1]`, the last
      transition generated so far: when it is conditioned, a default back
      to the same state follows it, unless it is itself a self-transition
      (MachineError); with nothing generated yet the lookup raises
      IndexError. */
  function Defaulted(all: seq<TransDict>, oldName: string, trigger: string): Result<seq<TransDict>>
  {
    if |all| == 0 then Err(IndexError)
    else if |all[|all| - 1].condition| == 0 then Ok(all)
    else if SelfTransition(all[|all| - 1]) then Err(MachineError)
    else Ok(all + [SameStateDefault(oldName, trigger)])
  }

  /** One pair: its transitions appended to those before, then the default
      rule. */
  function PairStep(t: NamedTree, td: TransDict, oldName: string, trigger: string, acc: seq<TransDict>, popped: bool): Result<seq<TransDict>>
  {
    var made :- Targeted(t, td, oldName, trigger, popped);
    Defaulted(acc + made, oldName, trigger)
  }

  /** A step of the loops of `standardize_transition`: a (leaf, trigger)
      pair, or an expanded old state that `all_states` does not find
      (KeyError). */
  datatype Step = Pair(oldName: string, trigger: string) | Missing

  function TriggerPairs(full: string, triggers: seq<string>): (r: seq<Step>)
    ensures |r| == |triggers| && forall i :: 0 <= i < |r| ==> r[i] == Pair(full, triggers[i])
  {
    seq(|triggers|, i requires 0 <= i < |triggers| => Pair(full, triggers[i]))
  }

  function FullPairs(fulls: seq<string>, triggers: seq<string>): seq<Step>
  {
    if |fulls| == 0 then [] else TriggerPairs(fulls[0], triggers) + FullPairs(fulls[1..], triggers)
  }

  /** The steps of one expanded old state. */
  function OldSteps(t: StateNode, e: Path, triggers: seq<string>): seq<Step>
  {
    match AllStatesOf(t, Print(e))
    case Err(_) => [Missing]
    case Ok(fulls) => FullPairs(fulls, triggers)
  }

  /** The steps of the three nested loops: expanded old states, their
      leaves, then triggers. */
  function StepsOf(t: StateNode, olds: seq<Path>, triggers: seq<string>): seq<Step>
  {
    if |olds| == 0 then [] else OldSteps(t, olds[0], triggers) + StepsOf(t, olds[1..], triggers)
  }

  /** The steps run in order from the transitions generated so far; the
      first failure is the result. */
  function Run(t: NamedTree, td: TransDict, steps: seq<Step>, acc: seq<TransDict>, asWritten: bool): Result<seq<TransDict>>
  {
    if |steps| == 0 then Ok(acc)
    else match steps[0]
      case Missing => Err(KeyError)
      case Pair(o, g) =>
        var next :- PairStep(t, td, o, g, acc, asWritten && |acc| > 0);
        Run(t, td, steps[1..], next, asWritten)
  }

  /** The old states of a declared transition, wildcards expanded with
      `states_getter`, which drills down from the configuration. */
  function ExpandedOlds(t: NamedTree, td: TransDict): Result<seq<Path>>
  {
    Expanded(NameList(td.oldState), DictGetter(t), [], false)
  }

  /** `standardize_transition` of a transition declared at a state whose
      configuration tree is `t`. */
  function Standardized(t: NamedTree, td: TransDict, asWritten: bool): Result<seq<TransDict>>
  {
    var olds :- ExpandedOlds(t, td);
    Run(t, td, StepsOf(t, olds, NameList(td.trigger)), [], asWritten)
  }

  /* ---------- what standardize_transition promises ---------- */

  /** Every conditioned transition is directly followed by one with the
      same old state and trigger, so none is left without a fallback. */
  predicate Backed(xs: seq<TransDict>)
  {
    forall i :: 0 <= i < |xs| && |xs[i].condition| > 0 ==>
      i + 1 < |xs| && xs[i + 1].oldState == xs[i].oldState && xs[i + 1].trigger == xs[i].trigger
  }

  /** Transitions that all have the given old state and trigger. */
  predicate SameKey(made: seq<TransDict>, oldName: string, trigger: string)
  {
    forall i :: 0 <= i < |made| ==> made[i].oldState == One(oldName) && made[i].trigger == One(trigger)
  }

  /** The default rule keeps what came before and what was generated, adds
      at most the default, and leaves the conditions backed. It fails only
      with nothing generated at all (IndexError) or with a conditioned
      self-transition last (MachineError). */
  lemma DefaultedBacked(acc: seq<TransDict>, made: seq<TransDict>, oldName: string, trigger: string)
    requires Backed(acc) && SameKey(made, oldName, trigger)
    ensures var all := acc + made;
            var r := Defaulted(all, oldName, trigger);
            (r.Ok? ==> Backed(r.value) && r.value[..|all|] == all && |r.value| <= |all| + 1 &&
                       (|r.value| > |all| ==> r.value[|all|] == SameStateDefault(oldName, trigger))) &&
            (r.Err? ==> (|all| == 0 && r.error == IndexError) ||
                        (|all| > 0 && |all[|all| - 1].condition| > 0 && SelfTransition(all[|all| - 1]) && r.error == MachineError))
  {
    var all := acc + made;
    var r := Defaulted(all, oldName, trigger);
    if r.Ok? {
      var xs := r.value;
      assert xs[..|all|] == all;
      forall i | 0 <= i < |xs|
        ensures |xs[i].condition| > 0 ==>
                i + 1 < |xs| && xs[i + 1].oldState == xs[i].oldState && xs[i + 1].trigger == xs[i].trigger
      {
        if i < |acc| - 1 {
          assert xs[i] == acc[i] && xs[i + 1] == acc[i + 1];
        } else if i == |acc| - 1 {
          assert xs[i] == acc[i];
        } else if i < |all| - 1 {
          assert xs[i] == made[i - |acc|] && xs[i + 1] == made[i + 1 - |acc|];
        } else if i == |all| - 1 {
          assert xs[i] == made[i - |acc|];
        }
      }
    }
  }

  /** One pair: the default rule applied to what came before and what the
      pair generates. */
  lemma PairStepBacked(t: NamedTree, td: TransDict, oldName: string, trigger: string, acc: seq<TransDict>, popped: bool)
    requires Backed(acc) && Targeted(t, td, oldName, trigger, popped).Ok?
    ensures var made := Targeted(t, td, oldName, trigger, popped).value;
            var r := PairStep(t, td, oldName, trigger, acc, popped);
            (r.Ok? ==> Backed(r.value) && r.value[..|acc| + |made|] == acc + made && |r.value| <= |acc| + |made| + 1 &&
                       (|r.value| > |acc| + |made| ==> r.value[|acc| + |made|] == SameStateDefault(oldName, trigger))) &&
            (r.Err? ==> (|acc + made| == 0 && r.error == IndexError) ||
                        (|acc + made| > 0 && |(acc + made)[|acc + made| - 1].condition| > 0 &&
                         SelfTransition((acc + made)[|acc + made| - 1]) && r.error == MachineError))
  {
    TargetedMade(t, td, oldName, trigger, popped);
    DefaultedBacked(acc, Targeted(t, td, oldName, trigger, popped).value, oldName, trigger);
  }

  /** The steps of the nested loops concatenate. */
  lemma {:induction false} RunAppend(t: NamedTree, td: TransDict, s1: seq<Step>, s2: seq<Step>, acc: seq<TransDict>, asWritten: bool)
    ensures Run(t, td, s1 + s2, acc, asWritten) == (var a :- Run(t, td, s1, acc, asWritten); Run(t, td, s2, a, asWritten))
  {
    if |s1| == 0 {
      assert s1 + s2 == s2;
    } else {
      assert (s1 + s2)[0] == s1[0] && (s1 + s2)[1..] == s1[1..] + s2;
      if s1[0].Pair? {
        var n := PairStep(t, td, s1[0].oldName, s1[0].trigger, acc, asWritten && |acc| > 0);
        if n.Ok? {
          RunAppend(t, td, s1[1..], s2, n.value, asWritten);
        }
      }
    }
  }

  /** Every step of the loops that is a pair starts at a leaf. */
  predicate LeafSteps(t: StateNode, steps: seq<Step>)
  {
    forall i :: 0 <= i < |steps| && steps[i].Pair? ==> LeafName(t, steps[i].oldName)
  }

  lemma {:induction false} FullPairsLeaves(t: StateNode, fulls: seq<string>, triggers: seq<string>)
    requires forall i :: 0 <= i < |fulls| ==> LeafName(t, fulls[i])
    ensures LeafSteps(t, FullPairs(fulls, triggers))
  {
    if |fulls| > 0 {
      assert forall i :: 0 <= i < |fulls| - 1 ==> fulls[1..][i] == fulls[i + 1];
      FullPairsLeaves(t, fulls[1..], triggers);
      LeafStepsAppend(t, TriggerPairs(fulls[0], triggers), FullPairs(fulls[1..], triggers));
    }
  }

  lemma LeafStepsAppend(t: StateNode, a: seq<Step>, b: seq<Step>)
    requires LeafSteps(t, a) && LeafSteps(t, b)
    ensures LeafSteps(t, a + b)
  {
    assert forall i :: |a| <= i < |a + b| ==> (a + b)[i] == b[i - |a|];
  }

  lemma OldStepsLeaves(t: NamedTree, e: Path, triggers: seq<string>)
    ensures LeafSteps(t, OldSteps(t, e, triggers))
  {
    if AllStatesOf(t, Print(e)).Ok? {
      AllStatesLeaves(t, Print(e));
      FullPairsLeaves(t, AllStatesOf(t, Print(e)).value, triggers);
    }
  }

  lemma {:induction false} StepsOfLeaves(t: NamedTree, olds: seq<Path>, triggers: seq<string>)
    ensures LeafSteps(t, StepsOf(t, olds, triggers))
  {
    if |olds| > 0 {
      StepsOfLeaves(t, olds[1..], triggers);
      OldStepsLeaves(t, olds[0], triggers);
      LeafStepsAppend(t, OldSteps(t, olds[0], triggers), StepsOf(t, olds[1..], triggers));
    }
  }

  /** Standard transitions between leaves. */
  predicate LeafToLeaf(t: StateNode, xs: seq<TransDict>)
  {
    forall i :: 0 <= i < |xs| ==> Plain(xs[i]) && LeafName(t, xs[i].oldState.name) && LeafName(t, xs[i].newState.name)
  }

  /** Appending what a pair from a leaf generates, and perhaps its
      default, keeps the transitions between leaves. */
  lemma NextLeafToLeaf(t: StateNode, oldName: string, trigger: string, acc: seq<TransDict>, made: seq<TransDict>, next: seq<TransDict>)
    requires LeafToLeaf(t, acc) && PairMade(t, oldName, trigger, made) && LeafName(t, oldName)
    requires |acc| + |made| <= |next| <= |acc| + |made| + 1 && next[..|acc| + |made|] == acc + made
    requires |next| > |acc| + |made| ==> next[|acc| + |made|] == SameStateDefault(oldName, trigger)
    ensures LeafToLeaf(t, next)
  {
    forall i | 0 <= i < |next|
      ensures Plain(next[i]) && LeafName(t, next[i].oldState.name) && LeafName(t, next[i].newState.name)
    {
      if i < |acc| {
        assert next[i] == (acc + made)[i] == acc[i];
      } else if i < |acc| + |made| {
        assert next[i] == (acc + made)[i] == made[i - |acc|];
      }
    }
  }

  /** One pair from a leaf keeps the transitions between leaves and
      backed. */
  lemma PairStepLaws(t: NamedTree, td: TransDict, oldName: string, trigger: string, acc: seq<TransDict>, popped: bool)
    requires LeafName(t, oldName) && LeafToLeaf(t, acc) && Backed(acc)
    requires PairStep(t, td, oldName, trigger, acc, popped).Ok?
    ensures LeafToLeaf(t, PairStep(t, td, oldName, trigger, acc, popped).value) &&
            Backed(PairStep(t, td, oldName, trigger, acc, popped).value)
  {
    var made := Targeted(t, td, oldName, trigger, popped).value;
    PairStepBacked(t, td, oldName, trigger, acc, popped);
    TargetedMade(t, td, oldName, trigger, popped);
    NextLeafToLeaf(t, oldName, trigger, acc, made, PairStep(t, td, oldName, trigger, acc, popped).value);
  }

  /** Running the steps keeps the transitions standard, between leaves and
      backed. */
  lemma {:induction false} RunLaws(t: NamedTree, td: TransDict, steps: seq<Step>, acc: seq<TransDict>, asWritten: bool)
    requires LeafSteps(t, steps) && LeafToLeaf(t, acc) && Backed(acc)
    requires Run(t, td, steps, acc, asWritten).Ok?
    ensures LeafToLeaf(t, Run(t, td, steps, acc, asWritten).value) && Backed(Run(t, td, steps, acc, asWritten).value)
  {
    if |steps| > 0 {
      var o := steps[0].oldName;
      var g := steps[0].trigger;
      var popped := asWritten && |acc| > 0;
      PairStepLaws(t, td, o, g, acc, popped);
      assert LeafSteps(t, steps[1..]) by {
        assert forall i :: 0 <= i < |steps| - 1 ==> steps[1..][i] == steps[i + 1];
      }
      RunLaws(t, td, steps[1..], PairStep(t, td, o, g, acc, popped).value, asWritten);
    }
  }

  /** Everything `standardize_transition` generates is a standard
      transition from a leaf to a leaf, and each conditioned one is backed
      by the next. */
  lemma StandardizedLaws(t: NamedTree, td: TransDict, asWritten: bool)
    requires Standardized(t, td, asWritten).Ok?
    ensures LeafToLeaf(t, Standardized(t, td, asWritten).value) && Backed(Standardized(t, td, asWritten).value)
  {
    var olds := ExpandedOlds(t, td).value;
    StepsOfLeaves(t, olds, NameList(td.trigger));
    RunLaws(t, td, StepsOf(t, olds, NameList(td.trigger)), [], asWritten);
  }

  /* ---------- the loops of standardize_transition ---------- */

  /** The body of the trigger loop for one pair: the cases in order, then
      the default rule. */
  method AppendPair(t: NamedTree, td: TransDict, oldName: string, trigger: string, acc: seq<TransDict>)
    returns (r: Result<seq<TransDict>>)
    ensures r == PairStep(t, td, oldName, trigger, acc, false)
  {
    var made: seq<TransDict> := [];
    match td.newState {
      case To(n) =>
        var x := Appended(t, oldName, n, trigger, td, NoCase);
        if x.Err? {
          return Err(x.error);
        }
        made := [x.value];
      case CaseMap(es) =>
        var f := MapCaseOf(t, td, oldName, trigger);
        for i := 0 to |es|
          invariant Each(es[..i], f) == Ok(made)
        {
          EachStep(es, i, f);
          var x := MapCase(t, td, oldName, trigger, es[i]);
          if x.Err? {
            EachFailEarly(es, i + 1, f);
            return Err(x.error);
          }
          made := made + [x.value];
        }
        assert es[..|es|] == es;
      case CaseList(cs) =>
        var f := ListCaseOf(t, td, oldName, trigger);
        for i := 0 to |cs|
          invariant Each(cs[..i], f) == Ok(made)
        {
          EachStep(cs, i, f);
          var x := ListCase(t, td, oldName, trigger, cs[i]);
          if x.Err? {
            EachFailEarly(cs, i + 1, f);
            return Err(x.error);
          }
          made := made + [x.value];
        }
        assert cs[..|cs|] == cs;
    }
    var all := acc + made;
    if |all| == 0 {
      return Err(IndexError);
    }
    var last := all[|all| - 1];
    if |last.condition| > 0 {
      if SelfTransition(last) {
        return Err(MachineError);
      }
      all := all + [SameStateDefault(oldName, trigger)];
    }
    r := Ok(all);
  }

  /** The loop over the triggers of one leaf. */
  method RunTriggers(t: NamedTree, td: TransDict, full: string, triggers: seq<string>, acc0: seq<TransDict>)
    returns (r: Result<seq<TransDict>>)
    ensures r == Run(t, td, TriggerPairs(full, triggers), acc0, false)
  {
    var acc := acc0;
    assert triggers[0..] == triggers;
    for k := 0 to |triggers|
      invariant Run(t, td, TriggerPairs(full, triggers), acc0, false) == Run(t, td, TriggerPairs(full, triggers[k..]), acc, false)
    {
      ghost var s := TriggerPairs(full, triggers[k..]);
      assert s[0] == Pair(full, triggers[k]);
      assert s[1..] == TriggerPairs(full, triggers[k + 1..]);
      var next := AppendPair(t, td, full, triggers[k], acc);
      if next.Err? {
        return Err(next.error);
      }
      acc := next.value;
    }
    r := Ok(acc);
  }

  /** The loop over the leaves below one expanded old state. */
  method RunLeaves(t: NamedTree, td: TransDict, fulls: seq<string>, triggers: seq<string>, acc0: seq<TransDict>)
    returns (r: Result<seq<TransDict>>)
    ensures r == Run(t, td, FullPairs(fulls, triggers), acc0, false)
  {
    var acc := acc0;
    assert fulls[0..] == fulls;
    for j := 0 to |fulls|
      invariant Run(t, td, FullPairs(fulls, triggers), acc0, false) == Run(t, td, FullPairs(fulls[j..], triggers), acc, false)
    {
      assert fulls[j..][0] == fulls[j] && fulls[j..][1..] == fulls[j + 1..];
      RunAppend(t, td, TriggerPairs(fulls[j], triggers), FullPairs(fulls[j + 1..], triggers), acc, false);
      var next := RunTriggers(t, td, fulls[j], triggers, acc);
      if next.Err? {
        return Err(next.error);
      }
      acc := next.value;
    }
    r := Ok(acc);
  }

  /** `standardize_transition`, with its loops over the expanded old
      states, their leaves, the triggers and the cases, as it is evidently
      meant to run: every pair reads the cases' `state` keys. */
  method StandardizeTransition(t: NamedTree, td: TransDict) returns (r: Result<seq<TransDict>>)
    ensures r == Standardized(t, td, false)
  {
    var expanded := GetExpandedPaths(NameList(td.oldState), DictGetter(t), [], false);
    if expanded.Err? {
      return Err(expanded.error);
    }
    var olds := expanded.value;
    var triggers := NameList(td.trigger);
    ghost var whole := Run(t, td, StepsOf(t, olds, triggers), [], false);
    var acc: seq<TransDict> := [];
    assert olds[0..] == olds;
    for i := 0 to |olds|
      invariant whole == Run(t, td, StepsOf(t, olds[i..], triggers), acc, false)
    {
      assert olds[i..][0] == olds[i] && olds[i..][1..] == olds[i + 1..];
      var found := AllStatesOf(t, Print(olds[i]));
      if found.Err? {
        return Err(KeyError);
      }
      RunAppend(t, td, FullPairs(found.value, triggers), StepsOf(t, olds[i + 1..], triggers), acc, false);
      var next := RunLeaves(t, td, found.value, triggers, acc);
      if next.Err? {
        return Err(next.error);
      }
      acc := next.value;
    }
    r := Ok(acc);
  }

  /* ---------- the case list as written ---------- */

  /** As written, the first pair pops the `state` key out of every case of
      a case list, so the second pair raises KeyError: a switch from two old
      leaves, or with two triggers, cannot be standardised. */
  lemma SecondPairAsWritten(t: NamedTree, td: TransDict, o1: string, g1: string, o2: string, g2: string, rest: seq<Step>)
    requires td.newState.CaseList? && |td.newState.cases| > 0
    requires PairStep(t, td, o1, g1, [], false).Ok?
    ensures Run(t, td, [Pair(o1, g1), Pair(o2, g2)] + rest, [], true) == Err(KeyError)
  {
    var s := [Pair(o1, g1), Pair(o2, g2)] + rest;
    assert s[0] == Pair(o1, g1) && s[1..] == [Pair(o2, g2)] + rest && s[1..][0] == Pair(o2, g2);
    var next := PairStep(t, td, o1, g1, [], false).value;
    assert |next| > 0;
    assert PairStep(t, td, o2, g2, next, true) == Err(KeyError);
  }

  /** As intended, every pair of a switch, first or not, generates one
      transition per case in case order after those before it. */
  lemma PairCases(t: NamedTree, td: TransDict, oldName: string, trigger: string, acc: seq<TransDict>)
    requires td.newState.CaseList? && PairStep(t, td, oldName, trigger, acc, false).Ok?
    ensures var r := PairStep(t, td, oldName, trigger, acc, false).value;
            var cs := td.newState.cases;
            |acc| + |cs| <= |r| && r[..|acc|] == acc &&
            forall i :: 0 <= i < |cs| ==> ListCase(t, td, oldName, trigger, cs[i]) == Ok(r[|acc| + i])
  {
    var made := ListCases(t, td, oldName, trigger, td.newState.cases).value;
    var r := PairStep(t, td, oldName, trigger, acc, false).value;
    assert r[..|acc| + |made|] == acc + made;
    assert forall i :: 0 <= i < |made| ==> r[|acc| + i] == (acc + made)[|acc| + i] == made[i];
  }

  /* ---------- validate_transitions ---------- */

  /** The key `check_uniqueness` compares. */
  function UniqueKey(x: TransDict): (Names, Targets, Names)
  {
    (x.oldState, x.newState, x.trigger)
  }

  /** The key `check_conditionals` groups by. */
  function GroupKey(x: TransDict): (Names, Names)
  {
    (x.oldState, x.trigger)
  }

  /** No two transitions share old state, new state and trigger. */
  predicate Unique(xs: seq<TransDict>)
  {
    forall i, j :: 0 <= i < j < |xs| ==> UniqueKey(xs[i]) != UniqueKey(xs[j])
  }

  /** A group whose transitions are all conditioned except the last. */
  predicate GroupConditioned(g: seq<TransDict>)
  {
    (forall i :: 0 <= i < |g| - 1 ==> |g[i].condition| > 0) && (|g| > 0 ==> |g[|g| - 1].condition| == 0)
  }

  /** Every (old state, trigger) group ends in its only unconditioned
      transition. */
  ghost predicate GroupsConditioned(xs: seq<TransDict>)
  {
    forall k :: GroupConditioned(Group(xs, GroupKey, k))
  }

  /** `check_uniqueness` with its set of seen keys. */
  method CheckUniqueness(xs: seq<TransDict>) returns (ok: bool)
    ensures ok <==> Unique(xs)
  {
    var seen: set<(Names, Targets, Names)> := {};
    for i := 0 to |xs|
      invariant seen == set j | 0 <= j < i :: UniqueKey(xs[j])
      invariant Unique(xs[..i])
    {
      var key := UniqueKey(xs[i]);
      if key in seen {
        var j :| 0 <= j < i && UniqueKey(xs[j]) == key;
        return false;
      }
      seen := seen + {key};
      assert forall j, m :: 0 <= j < m < i + 1 ==> xs[..i + 1][j] == xs[j] && xs[..i + 1][m] == xs[m];
    }
    assert xs[..|xs|] == xs;
    return true;
  }

  /** The checks of one group in `check_conditionals`. */
  method CheckGroup(g: seq<TransDict>) returns (ok: bool)
    requires |g| > 0
    ensures ok <==> GroupConditioned(g)
  {
    for m := 0 to |g| - 1
      invariant forall i :: 0 <= i < m ==> |g[i].condition| > 0
    {
      if |g[m].condition| == 0 {
        return false;
      }
    }
    ok := |g[|g| - 1].condition| == 0;
  }

  /** `check_conditionals`: the transitions grouped by old state and
      trigger in order of appearance, then each group checked. */
  method CheckConditionals(xs: seq<TransDict>) returns (ok: bool)
    ensures ok <==> GroupsConditioned(xs)
  {
    var triggering: map<(Names, Names), seq<TransDict>> := map[];
    var order: seq<(Names, Names)> := [];
    for i := 0 to |xs|
      invariant triggering == Grouping(xs[..i], GroupKey)
      invariant forall k :: k in triggering <==> k in order
    {
      assert xs[..i + 1][..i] == xs[..i] && xs[..i + 1][i] == xs[i];
      var k := GroupKey(xs[i]);
      if k !in triggering {
        order := order + [k];
      }
      triggering := triggering[k := (if k in triggering then triggering[k] else []) + [xs[i]]];
    }
    assert xs[..|xs|] == xs;
    for n := 0 to |order|
      invariant forall m :: 0 <= m < n ==> GroupConditioned(Group(xs, GroupKey, order[m]))
    {
      var k := order[n];
      GroupingAt(xs, GroupKey, k);
      var good := CheckGroup(triggering[k]);
      if !good {
        return false;
      }
    }
    forall k
      ensures GroupConditioned(Group(xs, GroupKey, k))
    {
      GroupingAt(xs, GroupKey, k);
      if k in triggering {
        var m :| 0 <= m < |order| && order[m] == k;
      }
    }
    return true;
  }

  /** `validate_transitions`: the transitions themselves when no two share
      a key and every group ends in its only unconditioned transition,
      else MachineError. */
  method ValidateTransitions(xs: seq<TransDict>) returns (r: Result<seq<TransDict>>)
    ensures r.Ok? <==> Unique(xs) && GroupsConditioned(xs)
    ensures r.Ok? ==> r.value == xs
    ensures r.Err? ==> r.error == MachineError
  {
    var unique := CheckUniqueness(xs);
    if !unique {
      return Err(MachineError);
    }
    var conditioned := CheckConditionals(xs);
    if !conditioned {
      return Err(MachineError);
    }
    r := Ok(xs);
  }

  /** The objects of a concatenation with a key are those of each part. */
  lemma {:induction false} GroupAppend<T, K>(a: seq<T>, b: seq<T>, key: T -> K, k: K)
    ensures Group(a + b, key, k) == Group(a, key, k) + Group(b, key, k)
  {
    if |b| == 0 {
      assert a + b == a;
    } else {
      assert (a + b)[..|a + b| - 1] == a + b[..|b| - 1] && (a + b)[|a + b| - 1] == b[|b| - 1];
      GroupAppend(a, b[..|b| - 1], key, k);
    }
  }

  /** In checked transitions, a transition is conditioned exactly when a
      later one has the same old state and trigger: a conditioned candidate
      always has a fallback, and an unconditioned one is the last. */
  lemma ConditionedHasFallback(xs: seq<TransDict>, i: nat)
    requires GroupsConditioned(xs) && i < |xs|
    ensures |xs[i].condition| > 0 <==> exists j :: i < j < |xs| && GroupKey(xs[j]) == GroupKey(xs[i])
  {
    var k := GroupKey(xs[i]);
    var before := xs[..i];
    var after := xs[i + 1..];
    assert xs == before + [xs[i]] + after;
    GroupAppend(before + [xs[i]], after, GroupKey, k);
    GroupAppend(before, [xs[i]], GroupKey, k);
    assert Group([xs[i]], GroupKey, k) == [xs[i]];
    var a := Group(before, GroupKey, k);
    var b := Group(after, GroupKey, k);
    var g := Group(xs, GroupKey, k);
    assert g == a + [xs[i]] + b;
    assert g[|a|] == xs[i];
    assert GroupConditioned(g);
    GroupingAt(after, GroupKey, k);
    if exists j :: i < j < |xs| && GroupKey(xs[j]) == k {
      var j :| i < j < |xs| && GroupKey(xs[j]) == k;
      assert after[j - i - 1] == xs[j];
    }
    if exists m :: 0 <= m < |after| && GroupKey(after[m]) == k {
      var m :| 0 <= m < |after| && GroupKey(after[m]) == k;
      assert xs[i + 1 + m] == after[m];
    }
  }

  /* ---------- pushdown_transitions ---------- */

  /** `sep.join(parts)`. */
  function JoinWith(sep: string, parts: seq<string>): string
  {
    if |parts| == 0 then ""
    else if |parts| == 1 then parts[0]
    else JoinWith(sep, parts[..|parts| - 1]) + sep + parts[|parts| - 1]
  }

  /** `merge`: MachineError for transitions that differ in old state, new
      state or trigger, or that are both conditioned; otherwise the first
      one keeps its condition, gets the second's on_transfer callbacks
      after its own, and the two infos joined by "; ". As written
      (`asWritten`) the join is over the one string `a.info + b.info`. */
  function Merged(a: TransDict, b: TransDict, asWritten: bool): (r: Result<TransDict>)
    ensures r.Ok? <==> UniqueKey(a) == UniqueKey(b) && (|a.condition| == 0 || |b.condition| == 0)
    ensures r.Err? ==> r.error == MachineError
    ensures r.Ok? ==> UniqueKey(r.value) == UniqueKey(a) && r.value.condition == a.condition &&
                      r.value.onTransfer == a.onTransfer + b.onTransfer
  {
    if UniqueKey(a) != UniqueKey(b) || (|a.condition| > 0 && |b.condition| > 0) then Err(MachineError)
    else
      var info := if asWritten then JoinWith("; ", [a.info + b.info]) else JoinWith("; ", [a.info, b.info]);
      Ok(a.(onTransfer := a.onTransfer + b.onTransfer, info := info))
  }

  /** As written, merging infos "a" and "b" gives exactly what merging "ab"
      and "" gives: the separator is lost and the infos cannot be told
      apart. */
  lemma MergeInfoAsWritten(x: TransDict)
    requires |x.condition| == 0
    ensures Merged(x.(info := "a"), x.(info := "b"), true) == Merged(x.(info := "ab"), x.(info := ""), true)
    ensures Merged(x.(info := "a"), x.(info := "b"), true).value.info == "ab"
  {
    assert "a" + "b" == "ab" + "" == "ab";
  }

  /** With the infos joined by "; ", a merge determines both infos as long
      as the first has no ';'. */
  lemma MergedInfoSeparable(x: TransDict, a1: string, b1: string, a2: string, b2: string)
    requires |x.condition| == 0 && ';' !in a1 && ';' !in a2
    requires Merged(x.(info := a1), x.(info := b1), false) == Merged(x.(info := a2), x.(info := b2), false)
    ensures a1 == a2 && b1 == b2
  {
    var s1 := Merged(x.(info := a1), x.(info := b1), false).value.info;
    var s2 := Merged(x.(info := a2), x.(info := b2), false).value.info;
    assert [a1, b1][..1] == [a1] && [a2, b2][..1] == [a2];
    assert JoinWith("; ", [a1]) == a1 && JoinWith("; ", [a2]) == a2;
    assert s1 == a1 + "; " + b1 && s2 == a2 + "; " + b2;
    if |a1| < |a2| {
      SeparatorFirst(a1, b1, a2, b2);
    } else if |a2| < |a1| {
      SeparatorFirst(a2, b2, a1, b1);
    } else {
      assert a1 == s1[..|a1|] && a2 == s2[..|a2|];
      assert b1 == s1[|a1| + 2..] && b2 == s2[|a2| + 2..];
    }
  }

  /** A "; " placed after a shorter first part falls inside a first part
      without ';'. */
  lemma SeparatorFirst(a: string, b: string, c: string, d: string)
    requires |a| < |c| && ';' !in c
    ensures a + "; " + b != c + "; " + d
  {
    assert (a + "; " + b)[|a|] == ';';
    assert (c + "; " + d)[|a|] == c[|a|];
  }

  /** Where the first transition alike in old state, new state and trigger
      is, if any. */
  function EqualAt(g: seq<TransDict>, x: TransDict): (r: Option<nat>)
    ensures r.Some? ==> r.value < |g| && UniqueKey(g[r.value]) == UniqueKey(x)
    ensures forall j :: 0 <= j < |g| && (r.None? || j < r.value) ==> UniqueKey(g[j]) != UniqueKey(x)
  {
    if |g| == 0 then None
    else if UniqueKey(g[0]) == UniqueKey(x) then Some(0)
    else
      match EqualAt(g[1..], x)
      case None => None
      case Some(j) => Some(j + 1)
  }

  /** `get_equal`, by position. */
  method GetEqual(g: seq<TransDict>, x: TransDict) returns (r: Option<nat>)
    ensures r == EqualAt(g, x)
  {
    for i := 0 to |g|
      invariant forall j :: 0 <= j < i ==> UniqueKey(g[j]) != UniqueKey(x)
    {
      if UniqueKey(g[i]) == UniqueKey(x) {
        return Some(i);
      }
    }
    return None;
  }

  /** A transition moved into the configuration of a common state, its
      states renamed relative to that state. */
  function Moved(x: TransDict, oldTail: Path, newTail: Path): TransDict
  {
    x.(oldState := One(Print(oldTail)), newState := To(Print(newTail)))
  }

  /** The `transitions` of the configuration at `k`, with `y` merged into
      the first transition alike or else appended. A configuration without
      a `transitions` list raises KeyError. */
  function Placed(decl: map<Path, seq<TransDict>>, k: Path, y: TransDict): Result<map<Path, seq<TransDict>>>
  {
    if k !in decl then Err(KeyError)
    else
      match EqualAt(decl[k], y)
      case None => Ok(decl[k := decl[k] + [y]])
      case Some(j) =>
        var m :- Merged(decl[k][j], y, false);
        Ok(decl[k := decl[k][j := m]])
  }

  /** `get_spliced_names` of a standard transition's two states. */
  function SplitOf(x: TransDict): Result<(Path, Path, Path)>
    requires Plain(x)
  {
    GetSplicedPath(Parse(x.oldState.name), Parse(x.newState.name))
  }

  /** A transition that stays: its two states have no common state below
      the configuration. */
  predicate Stays(x: TransDict)
    requires Plain(x)
  {
    SplitOf(x).Ok? && |SplitOf(x).value.0| == 0
  }

  /** One turn of the loop of `pushdown_transitions`: the transition is
      kept, or moved with relative names into the configuration of the
      common state. */
  function PushStep(x: TransDict, kept: seq<TransDict>, decl: map<Path, seq<TransDict>>, at: Path): Result<(seq<TransDict>, map<Path, seq<TransDict>>)>
    requires Plain(x)
  {
    var s :- SplitOf(x);
    if |s.0| == 0 then Ok((kept + [x], decl))
    else
      var d :- Placed(decl, at + s.0, Moved(x, s.1, s.2));
      Ok((kept, d))
  }

  /** `pushdown_transitions` at the configuration found at `at`, with the
      `transitions` of every configuration by absolute path: the
      transitions that stay, and the configurations after the moves. */
  function Pushdown(xs: seq<TransDict>, decl: map<Path, seq<TransDict>>, at: Path): Result<(seq<TransDict>, map<Path, seq<TransDict>>)>
    requires forall i :: 0 <= i < |xs| ==> Plain(xs[i])
  {
    if |xs| == 0 then Ok(([], decl))
    else
      var p :- Pushdown(xs[..|xs| - 1], decl, at);
      PushStep(xs[|xs| - 1], p.0, p.1, at)
  }

  lemma {:induction false} PushdownFailEarly(xs: seq<TransDict>, k: nat, decl: map<Path, seq<TransDict>>, at: Path)
    requires forall i :: 0 <= i < |xs| ==> Plain(xs[i])
    requires k <= |xs| && Pushdown(xs[..k], decl, at).Err?
    ensures Pushdown(xs, decl, at) == Pushdown(xs[..k], decl, at)
  {
    if k < |xs| {
      var init := xs[..|xs| - 1];
      assert init[..k] == xs[..k];
      PushdownFailEarly(init, k, decl, at);
    } else {
      assert xs[..k] == xs;
    }
  }

  /** `pushdown_transitions`: the loop over the transitions; a moved one
      leaves the list and lands in the configuration of its common state. */
  /** One turn of the loop of `pushdown_transitions`. */
  method PushOne(x: TransDict, kept: seq<TransDict>, decl: map<Path, seq<TransDict>>, at: Path)
    returns (r: Result<(seq<TransDict>, map<Path, seq<TransDict>>)>)
    requires Plain(x)
    ensures r == PushStep(x, kept, decl, at)
  {
    var split := GetSplicedPath(Parse(x.oldState.name), Parse(x.newState.name));
    if split.Err? {
      return Err(split.error);
    }
    var (common, oldTail, newTail) := split.value;
    if |common| == 0 {
      return Ok((kept + [x], decl));
    }
    var k := at + common;
    if k !in decl {
      return Err(KeyError);
    }
    var y := Moved(x, oldTail, newTail);
    var same := GetEqual(decl[k], y);
    if same.None? {
      return Ok((kept, decl[k := decl[k] + [y]]));
    }
    var m := Merged(decl[k][same.value], y, false);
    if m.Err? {
      return Err(m.error);
    }
    return Ok((kept, decl[k := decl[k][same.value := m.value]]));
  }

  /** `pushdown_transitions`: the loop over the transitions; a moved one
      leaves the list and lands in the configuration of its common state. */
  method PushdownTransitions(xs: seq<TransDict>, decl: map<Path, seq<TransDict>>, at: Path)
    returns (r: Result<(seq<TransDict>, map<Path, seq<TransDict>>)>)
    requires forall i :: 0 <= i < |xs| ==> Plain(xs[i])
    ensures r == Pushdown(xs, decl, at)
  {
    var kept: seq<TransDict> := [];
    var d := decl;
    for i := 0 to |xs|
      invariant Pushdown(xs[..i], decl, at) == Ok((kept, d))
    {
      assert xs[..i + 1][..i] == xs[..i] && xs[..i + 1][i] == xs[i];
      var next := PushOne(xs[i], kept, d, at);
      if next.Err? {
        PushdownFailEarly(xs, i + 1, decl, at);
        return next;
      }
      kept, d := next.value.0, next.value.1;
    }
    assert xs[..|xs|] == xs;
    return Ok((kept, d));
  }

  /** The transitions that stay, in their order. */
  function Staying(xs: seq<TransDict>): (r: seq<TransDict>)
    requires forall i :: 0 <= i < |xs| ==> Plain(xs[i])
    ensures forall y :: y in r <==> y in xs && Plain(y) && Stays(y)
  {
    if |xs| == 0 then []
    else
      assert forall y :: y in xs <==> y in xs[..|xs| - 1] || y == xs[|xs| - 1];
      Staying(xs[..|xs| - 1]) + if Stays(xs[|xs| - 1]) then [xs[|xs| - 1]] else []
  }

  /** A configuration found under the same key as `y`. */
  predicate Found(decl: map<Path, seq<TransDict>>, k: Path, y: TransDict)
  {
    k in decl && exists j :: 0 <= j < |decl[k]| && UniqueKey(decl[k][j]) == UniqueKey(y)
  }

  /** `d2` has the configurations of `d1`, each with at least its
      transitions, those under the same keys and in the same places, and
      only those strictly below `at` changed. */
  predicate Extends(d1: map<Path, seq<TransDict>>, d2: map<Path, seq<TransDict>>, at: Path)
  {
    d1.Keys == d2.Keys &&
    forall k :: k in d1 ==>
      |d1[k]| <= |d2[k]| && (forall j :: 0 <= j < |d1[k]| ==> UniqueKey(d2[k][j]) == UniqueKey(d1[k][j])) &&
      (!(at < k) ==> d2[k] == d1[k])
  }

  lemma ExtendsTrans(d1: map<Path, seq<TransDict>>, d2: map<Path, seq<TransDict>>, d3: map<Path, seq<TransDict>>, at: Path)
    requires Extends(d1, d2, at) && Extends(d2, d3, at)
    ensures Extends(d1, d3, at)
  {
  }

  lemma FoundExtends(d1: map<Path, seq<TransDict>>, d2: map<Path, seq<TransDict>>, at: Path, k: Path, y: TransDict)
    requires Extends(d1, d2, at) && Found(d1, k, y)
    ensures Found(d2, k, y)
  {
    var j :| 0 <= j < |d1[k]| && UniqueKey(d1[k][j]) == UniqueKey(y);
    assert UniqueKey(d2[k][j]) == UniqueKey(y);
  }

  /** Placing a transition below `at` extends the configurations and finds
      it there. */
  lemma PlacedLaws(decl: map<Path, seq<TransDict>>, at: Path, k: Path, y: TransDict)
    requires at < k && Placed(decl, k, y).Ok?
    ensures Extends(decl, Placed(decl, k, y).value, at) && Found(Placed(decl, k, y).value, k, y)
  {
    var d := Placed(decl, k, y).value;
    match EqualAt(decl[k], y)
    case None =>
      assert UniqueKey(d[k][|decl[k]|]) == UniqueKey(y);
    case Some(j) =>
      assert UniqueKey(d[k][j]) == UniqueKey(y);
  }

  /** After `pushdown_transitions`, the list holds exactly the transitions
      that stay, in order; every other transition is found, under its
      relative names, in the configuration of its common state; and the
      configurations keep what they had, changing only below this one. */
  lemma {:induction false} PushdownLaws(xs: seq<TransDict>, decl: map<Path, seq<TransDict>>, at: Path)
    requires forall i :: 0 <= i < |xs| ==> Plain(xs[i])
    requires Pushdown(xs, decl, at).Ok?
    ensures var r := Pushdown(xs, decl, at).value;
            r.0 == Staying(xs) && Extends(decl, r.1, at) &&
            forall i :: 0 <= i < |xs| ==> (SplitOf(xs[i]).Ok? &&
              (!Stays(xs[i]) ==> Found(r.1, at + SplitOf(xs[i]).value.0, Moved(xs[i], SplitOf(xs[i]).value.1, SplitOf(xs[i]).value.2))))
  {
    if |xs| > 0 {
      var init := xs[..|xs| - 1];
      var x := xs[|xs| - 1];
      PushdownLaws(init, decl, at);
      var p := Pushdown(init, decl, at).value;
      var r := Pushdown(xs, decl, at).value;
      var s := SplitOf(x).value;
      if |s.0| > 0 {
        PlacedLaws(p.1, at, at + s.0, Moved(x, s.1, s.2));
        ExtendsTrans(decl, p.1, r.1, at);
      }
      forall i | 0 <= i < |xs|
        ensures SplitOf(xs[i]).Ok? &&
          (!Stays(xs[i]) ==> Found(r.1, at + SplitOf(xs[i]).value.0, Moved(xs[i], SplitOf(xs[i]).value.1, SplitOf(xs[i]).value.2)))
      {
        if i < |xs| - 1 {
          assert xs[i] == init[i];
          if !Stays(xs[i]) {
            FoundExtends(p.1, r.1, at, at + SplitOf(xs[i]).value.0, Moved(xs[i], SplitOf(xs[i]).value.1, SplitOf(xs[i]).value.2));
          }
        }
      }
    }
  }

  /** A moved transition names, below the common state, the same states it
      named: the common path followed by each relative name is the
      original path, and neither relative name is empty. */
  lemma MovedNames(x: TransDict)
    requires Plain(x) && SplitOf(x).Ok? && !Stays(x)
    ensures var (c, ot, nt) := SplitOf(x).value;
            var y := Moved(x, ot, nt);
            |c| > 0 && Plain(y) && UniqueKey(y).2 == UniqueKey(x).2 &&
            c + Parse(y.oldState.name) == Parse(x.oldState.name) && c + Parse(y.newState.name) == Parse(x.newState.name) &&
            |Parse(y.oldState.name)| > 0 && |Parse(y.newState.name)| > 0
  {
    var (c, ot, nt) := SplitOf(x).value;
    ParseWellFormed(x.oldState.name);
    ParseWellFormed(x.newState.name);
    SplicedPathLaws(Parse(x.oldState.name), Parse(x.newState.name));
    ConcatWellFormed(c, ot);
    ConcatWellFormed(c, nt);
    ParsePrint(ot);
    ParsePrint(nt);
  }

  /* ---------- standardize_transitions ---------- */

  /** Each declared transition standardised in turn, the results one after
      the other. */
  function StandardizedAll(t: NamedTree, tds: seq<TransDict>): Result<seq<TransDict>>
  {
    if |tds| == 0 then Ok([])
    else
      var init :- StandardizedAll(t, tds[..|tds| - 1]);
      var last :- Standardized(t, tds[|tds| - 1], false);
      Ok(init + last)
  }

  lemma {:induction false} StandardizedAllFailEarly(t: NamedTree, tds: seq<TransDict>, k: nat)
    requires k <= |tds| && StandardizedAll(t, tds[..k]).Err?
    ensures StandardizedAll(t, tds) == StandardizedAll(t, tds[..k])
  {
    if k < |tds| {
      var init := tds[..|tds| - 1];
      assert init[..k] == tds[..k];
      StandardizedAllFailEarly(t, init, k);
    } else {
      assert tds[..k] == tds;
    }
  }

  /** All of them are standard transitions between leaves. */
  lemma {:induction false} StandardizedAllLeaves(t: NamedTree, tds: seq<TransDict>)
    requires StandardizedAll(t, tds).Ok?
    ensures LeafToLeaf(t, StandardizedAll(t, tds).value)
  {
    if |tds| > 0 {
      var front := tds[..|tds| - 1];
      StandardizedAllLeaves(t, front);
      StandardizedLaws(t, tds[|tds| - 1], false);
      LeafToLeafJoined(t, StandardizedAll(t, front).value, Standardized(t, tds[|tds| - 1], false).value);
    }
  }

  lemma LeafToLeafJoined(t: StateNode, a: seq<TransDict>, b: seq<TransDict>)
    requires LeafToLeaf(t, a) && LeafToLeaf(t, b)
    ensures LeafToLeaf(t, a + b)
  {
    forall i | 0 <= i < |a + b|
      ensures Plain((a + b)[i]) && LeafName(t, (a + b)[i].oldState.name) && LeafName(t, (a + b)[i].newState.name)
    {
      if i >= |a| {
        assert (a + b)[i] == b[i - |a|];
      }
    }
  }

  /** What `validate_transitions` accepts, of the transitions at a state
      `t`: standard, between leaves of `t`, none alike, and each (old state,
      trigger) group ending in its only unconditioned transition. */
  ghost predicate Checked(t: StateNode, xs: seq<TransDict>)
  {
    LeafToLeaf(t, xs) && Unique(xs) && GroupsConditioned(xs)
  }

  /** `standardize_transitions` at the state `t` found at `at`: the
      declared transitions standardised, pushed down, and what stays
      validated. */
  ghost function Level(t: NamedTree, tds: seq<TransDict>, decl: map<Path, seq<TransDict>>, at: Path)
    : Result<(seq<TransDict>, map<Path, seq<TransDict>>)>
  {
    var all :- StandardizedAll(t, tds);
    StandardizedAllLeaves(t, tds);
    var p :- Pushdown(all, decl, at);
    if Unique(p.0) && GroupsConditioned(p.0) then Ok(p) else Err(MachineError)
  }

  /** The transitions a level keeps are checked, and the configurations it
      moves transitions into are extended, all of them below it. */
  lemma LevelLaws(t: NamedTree, tds: seq<TransDict>, decl: map<Path, seq<TransDict>>, at: Path)
    requires Level(t, tds, decl, at).Ok?
    ensures Checked(t, Level(t, tds, decl, at).value.0) && Extends(decl, Level(t, tds, decl, at).value.1, at)
  {
    var all := StandardizedAll(t, tds).value;
    StandardizedAllLeaves(t, tds);
    PushdownLaws(all, decl, at);
    var kept := Level(t, tds, decl, at).value.0;
    assert kept == Staying(all);
    forall i | 0 <= i < |kept|
      ensures Plain(kept[i]) && LeafName(t, kept[i].oldState.name) && LeafName(t, kept[i].newState.name)
    {
      assert kept[i] in kept;
      var j :| 0 <= j < |all| && all[j] == kept[i];
    }
  }

  /** `standardize_transitions`: each declared transition standardised in
      turn, then `pushdown_transitions` and `validate_transitions`. */
  method StandardizeTransitions(t: NamedTree, tds: seq<TransDict>, decl: map<Path, seq<TransDict>>, at: Path)
    returns (r: Result<(seq<TransDict>, map<Path, seq<TransDict>>)>)
    ensures r == Level(t, tds, decl, at)
  {
    var all: seq<TransDict> := [];
    for i := 0 to |tds|
      invariant StandardizedAll(t, tds[..i]) == Ok(all)
    {
      assert tds[..i + 1][..i] == tds[..i] && tds[..i + 1][i] == tds[i];
      var made := StandardizeTransition(t, tds[i]);
      if made.Err? {
        StandardizedAllFailEarly(t, tds, i + 1);
        return Err(made.error);
      }
      all := all + made.value;
    }
    assert tds[..|tds|] == tds;
    StandardizedAllLeaves(t, tds);
    var pushed := PushdownTransitions(all, decl, at);
    if pushed.Err? {
      return Err(pushed.error);
    }
    var valid := ValidateTransitions(pushed.value.0);
    if valid.Err? {
      return Err(valid.error);
    }
    r := pushed;
  }

  /* ---------- the recursion over the configurations ---------- */

  /** `standardize_statemachine_config` on the configuration of the state
      `t`, found at `at`, with the `transitions` of every configuration by
      absolute path. With sub-states, its transitions are standardised
      (moved ones landing in configurations below) and then each
      sub-state's configuration in order; without, nothing changes. A
      configuration with sub-states but no `transitions` raises KeyError. */
  ghost function StandardizeAt(t: NamedTree, decl: map<Path, seq<TransDict>>, at: Path): Result<map<Path, seq<TransDict>>>
    decreases t
  {
    if |t.subs| == 0 then Ok(decl)
    else if at !in decl then Err(KeyError)
    else
      var p :- Level(t, decl[at], decl, at);
      StandardizeSubs(t.subs, p.1[at := p.0], at)
  }

  ghost function StandardizeSubs(ts: seq<StateNode>, decl: map<Path, seq<TransDict>>, at: Path): Result<map<Path, seq<TransDict>>>
    requires forall i :: 0 <= i < |ts| ==> WellNamed(ts[i])
    decreases ts
  {
    if |ts| == 0 then Ok(decl)
    else
      var d :- StandardizeAt(ts[0], decl, at + [Key(ts[0].name)]);
      StandardizeSubs(ts[1..], d, at)
  }

  /** `standardize_statemachine_config`, recursively. */
  method StandardizeConfig(t: NamedTree, decl: map<Path, seq<TransDict>>, at: Path) returns (r: Result<map<Path, seq<TransDict>>>)
    ensures r == StandardizeAt(t, decl, at)
    decreases t
  {
    if |t.subs| == 0 {
      return Ok(decl);
    }
    if at !in decl {
      return Err(KeyError);
    }
    var level := StandardizeTransitions(t, decl[at], decl, at);
    if level.Err? {
      return Err(level.error);
    }
    r := StandardizeChildren(t.subs, level.value.1[at := level.value.0], at);
  }

  /** The loop of `standardize_statemachine_config` over the sub-states. */
  method StandardizeChildren(ts: seq<StateNode>, decl: map<Path, seq<TransDict>>, at: Path) returns (r: Result<map<Path, seq<TransDict>>>)
    requires forall i :: 0 <= i < |ts| ==> WellNamed(ts[i])
    ensures r == StandardizeSubs(ts, decl, at)
    decreases ts
  {
    var d := decl;
    for i := 0 to |ts|
      invariant StandardizeSubs(ts, decl, at) == StandardizeSubs(ts[i..], d, at)
    {
      assert ts[i..][0] == ts[i] && ts[i..][1..] == ts[i + 1..];
      var child := StandardizeConfig(ts[i], d, at + [Key(ts[i].name)]);
      if child.Err? {
        return Err(child.error);
      }
      d := child.value;
    }
    return Ok(d);
  }

  /** Standardising the configuration at `at` changes only it and those
      below it. */
  lemma {:induction false} StandardizeAtFrame(t: NamedTree, decl: map<Path, seq<TransDict>>, at: Path)
    requires StandardizeAt(t, decl, at).Ok?
    ensures var r := StandardizeAt(t, decl, at).value;
            r.Keys == decl.Keys && forall k :: k in decl && !(at <= k) ==> r[k] == decl[k]
    decreases t
  {
    if |t.subs| > 0 {
      var p := Level(t, decl[at], decl, at).value;
      LevelLaws(t, decl[at], decl, at);
      StandardizeSubsFrame(t.subs, p.1[at := p.0], at);
    }
  }

  /** Standardising the sub-states changes only the configurations below
      one of them. */
  lemma {:induction false} StandardizeSubsFrame(ts: seq<StateNode>, decl: map<Path, seq<TransDict>>, at: Path)
    requires forall i :: 0 <= i < |ts| ==> WellNamed(ts[i])
    requires StandardizeSubs(ts, decl, at).Ok?
    ensures var r := StandardizeSubs(ts, decl, at).value;
            r.Keys == decl.Keys &&
            forall k :: k in decl && (forall i :: 0 <= i < |ts| ==> !(at + [Key(ts[i].name)] <= k)) ==> r[k] == decl[k]
    decreases ts
  {
    if |ts| > 0 {
      var d := StandardizeAt(ts[0], decl, at + [Key(ts[0].name)]).value;
      StandardizeAtFrame(ts[0], decl, at + [Key(ts[0].name)]);
      StandardizeSubsFrame(ts[1..], d, at);
      forall k | k in decl && (forall i :: 0 <= i < |ts| ==> !(at + [Key(ts[i].name)] <= k))
        ensures forall i :: 0 <= i < |ts[1..]| ==> !(at + [Key(ts[1..][i].name)] <= k)
      {
        assert forall i :: 0 <= i < |ts[1..]| ==> ts[1..][i] == ts[i + 1];
      }
    }
  }

  /** Every state with sub-states in the tree of `t`, found at `at`, has
      checked transitions in `r`, read relative to that state. */
  ghost predicate AllChecked(t: StateNode, r: map<Path, seq<TransDict>>, at: Path)
  {
    forall p :: ConfigAt(t, p).Ok? && |ConfigAt(t, p).value.subs| > 0 ==>
      at + p in r && Checked(ConfigAt(t, p).value, r[at + p])
  }

  /** Sub-states with distinct names. */
  predicate DistinctNames(ts: seq<StateNode>)
  {
    forall i, j :: 0 <= i < j < |ts| ==> ts[i].name != ts[j].name
  }

  /** After `standardize_statemachine_config`, every state with sub-states
      has transitions that are standard, between its own leaves, none
      alike, and with each (old state, trigger) group ending in its only
      unconditioned transition. */
  lemma {:induction false} StandardizeAtChecked(t: NamedTree, decl: map<Path, seq<TransDict>>, at: Path)
    requires StandardizeAt(t, decl, at).Ok?
    ensures AllChecked(t, StandardizeAt(t, decl, at).value, at)
    decreases t
  {
    var r := StandardizeAt(t, decl, at).value;
    if |t.subs| > 0 {
      var p0 := Level(t, decl[at], decl, at).value;
      var d0 := p0.1[at := p0.0];
      LevelLaws(t, decl[at], decl, at);
      StandardizeSubsChecked(t.subs, d0, at);
      StandardizeSubsFrame(t.subs, d0, at);
      assert r[at] == p0.0;
    }
    AllCheckedFromSubs(t, r, at);
  }

  /** A state is checked throughout when it is checked itself and each of
      its sub-states is checked throughout. */
  lemma AllCheckedFromSubs(t: NamedTree, r: map<Path, seq<TransDict>>, at: Path)
    requires |t.subs| > 0 ==> at in r && Checked(t, r[at])
    requires forall i :: 0 <= i < |t.subs| ==> AllChecked(t.subs[i], r, at + [Key(t.subs[i].name)])
    ensures AllChecked(t, r, at)
  {
    forall p | ConfigAt(t, p).Ok? && |ConfigAt(t, p).value.subs| > 0
      ensures at + p in r && Checked(ConfigAt(t, p).value, r[at + p])
    {
      if |p| == 0 {
        assert at + p == at;
      } else {
        var c := SubConfig(t, p[0]).value;
        var i :| 0 <= i < |t.subs| && t.subs[i] == c;
        assert p[0] == Key(c.name);
        assert ConfigAt(t, p) == ConfigAt(c, p[1..]);
        assert at + p == at + [Key(c.name)] + p[1..];
        assert AllChecked(t.subs[i], r, at + [Key(t.subs[i].name)]);
      }
    }
  }

  /** After standardising sub-states with distinct names, every one of
      them is checked throughout: a later one never touches the
      configurations of an earlier one. */
  lemma {:induction false} StandardizeSubsChecked(ts: seq<StateNode>, decl: map<Path, seq<TransDict>>, at: Path)
    requires forall i :: 0 <= i < |ts| ==> WellNamed(ts[i])
    requires DistinctNames(ts) && StandardizeSubs(ts, decl, at).Ok?
    ensures forall i :: 0 <= i < |ts| ==> AllChecked(ts[i], StandardizeSubs(ts, decl, at).value, at + [Key(ts[i].name)])
    decreases ts
  {
    if |ts| > 0 {
      var r := StandardizeSubs(ts, decl, at).value;
      var base := at + [Key(ts[0].name)];
      var d := StandardizeAt(ts[0], decl, base).value;
      StandardizeAtChecked(ts[0], decl, base);
      StandardizeSubsChecked(ts[1..], d, at);
      StandardizeSubsFrame(ts[1..], d, at);
      forall p | ConfigAt(ts[0], p).Ok? && |ConfigAt(ts[0], p).value.subs| > 0
        ensures base + p in r && r[base + p] == d[base + p]
      {
        var k := base + p;
        forall j | 0 <= j < |ts[1..]|
          ensures !(at + [Key(ts[1..][j].name)] <= k)
        {
          assert ts[1..][j] == ts[j + 1];
          assert k[|at|] == Key(ts[0].name);
        }
      }
      assert forall i :: 1 <= i < |ts| ==> ts[i] == ts[1..][i - 1];
    }
  }
}
