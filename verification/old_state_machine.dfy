/** The older nested machine of states/old_state_machine.py. Every state
    with sub-states is a machine of its own: it standardises its transition
    dictionaries, expands switched transitions, creates one transition per
    trigger, and files them by (old path, trigger). A trigger is resolved
    by trying the prefixes of the current state's path at the outermost
    level first and descending by name; the candidates found run in order
    until one of them fires. */
module OldStateMachine {
  import opened Wrappers
  import opened PathTools
  import opened Trace
  import opened StateTree
  import opened CallbackStore
  import opened Normalize
  import opened TransitionLegacy

  /* ---------- _validate_name ---------- */

  /** The characters no state or machine name may contain. */
  const Excluded: string := ".*[]()"

  /** `_validate_name`: the name itself, unless it starts with `_` or
      contains one of the excluded characters. */
  function ValidateName(name: string): (r: Result<string>)
    ensures r.Ok? ==> r.value == name
    ensures r.Err? ==> r.error == MachineError
  {
    if |name| > 0 && name[0] == '_' then Err(MachineError)
    else if exists c :: c in Excluded && c in name then Err(MachineError)
    else Ok(name)
  }

  /** An accepted name is a single segment of a dotted path, is never the
      wildcard and is a valid transition target, while the key the machine
      keeps an object's state under (`'_' + name`) is never an accepted
      name. */
  lemma ValidNameLaws(name: string)
    ensures ValidateName(name).Ok? <==>
              (|name| == 0 || name[0] != '_') && forall i :: 0 <= i < |name| ==> name[i] !in Excluded
    ensures ValidateName(name).Ok? ==>
              Split(name) == [name] && '*' !in name && ValidateNewState(Name(name)).Ok? &&
              ValidateName("_" + name).Err?
  {
    if ValidateName(name).Ok? {
      assert Separator in Excluded;
      SplitWord(name, "");
      assert name + "" == name;
    }
    if (|name| == 0 || name[0] != '_') && forall i :: 0 <= i < |name| ==> name[i] !in Excluded {
      assert !exists c :: c in Excluded && c in name;
    }
  }

  /* ---------- transition dictionaries ---------- */

  /** The body of one entry of a switched `new_state` mapping. */
  datatype SwitchBody = SwitchBody(condition: Option<seq<Callback>>, onTransfer: Option<seq<Callback>>,
                                   info: Option<string>)

  /** A `new_state` value: a name (or, wrongly, a list of names), or a
      mapping from target names to switch bodies, in insertion order. */
  datatype NewState = Target(arg: StateArg) | Switch(cases: seq<(string, SwitchBody)>)

  /** A transition dictionary as configured; `None` is a missing key. */
  datatype RawTrans = RawTrans(oldState: Option<StateArg>, newState: Option<NewState>, trigger: Option<StateArg>,
                               onTransfer: seq<Callback>, condition: seq<Callback>, info: string)

  /** A switch entry once its condition and `on_transfer` are lists. */
  datatype Case = Case(name: string, condition: seq<Callback>, onTransfer: seq<Callback>, info: Option<string>)

  /** The target of a standardised dictionary: one validated name or the
      cases of a switch. */
  datatype Goal = One(name: string) | Cases(cases: seq<Case>)

  /** A transition dictionary after `_standardize_all`: one old state name
      and the list of triggers. */
  datatype StdTrans = StdTrans(oldState: string, newState: Goal, triggers: seq<string>,
                               onTransfer: seq<Callback>, condition: seq<Callback>, info: string)

  /** A transition dictionary after `_expand_switches`: one new state. */
  datatype FlatTrans = FlatTrans(oldState: string, newState: string, triggers: seq<string>,
                                 onTransfer: seq<Callback>, condition: seq<Callback>, info: string)

  /** `listify` of a name or a list of names. */
  function ArgNames(a: StateArg): (r: seq<string>)
    ensures a.Name? ==> r == [a.s]
    ensures a.Several? ==> r == a.names
  {
    match a
    case Name(s) => [s]
    case Several(ns) => ns
  }

  function OrEmpty<T>(o: Option<seq<T>>): seq<T>
  {
    if o.Some? then o.value else []
  }

  /* ---------- _standardize_all ---------- */

  /** Whether the dictionary has all of `old_state`, `new_state` and
      `trigger`. */
  predicate Complete(td: RawTrans)
  {
    td.oldState.Some? && td.newState.Some? && td.trigger.Some?
  }

  /** A target as the standardised dictionaries hold it. */
  predicate ValidGoal(g: Goal)
  {
    match g
    case One(n) => '*' !in n
    case Cases(cs) => forall i :: 0 <= i < |cs| ==> '*' !in cs[i].name
  }

  /** The switch entries with their callbacks made lists. */
  function CasesOf(es: seq<(string, SwitchBody)>): (r: Result<seq<Case>>)
    ensures r.Ok? <==> forall i :: 0 <= i < |es| ==> '*' !in es[i].0
    ensures r.Err? ==> r.error == MachineError
    ensures r.Ok? ==> |r.value| == |es| && forall i :: 0 <= i < |es| ==>
              r.value[i] == Case(es[i].0, OrEmpty(es[i].1.condition), OrEmpty(es[i].1.onTransfer), es[i].1.info)
  {
    if |es| == 0 then Ok([])
    else
      var _ :- ValidateNewState(Name(es[0].0));
      var rest :- CasesOf(es[1..]);
      assert forall i :: 1 <= i < |es| ==> es[i] == es[1..][i - 1];
      Ok([Case(es[0].0, OrEmpty(es[0].1.condition), OrEmpty(es[0].1.onTransfer), es[0].1.info)] + rest)
  }

  /** What one complete dictionary standardises to, apart from the old
      state: its target validated, its triggers listed. */
  function Template(td: RawTrans): (r: Result<StdTrans>)
    requires Complete(td)
    ensures r.Err? ==> r.error == MachineError
    ensures r.Ok? ==> ValidGoal(r.value.newState) && r.value.triggers == ArgNames(td.trigger.value) &&
                      r.value.onTransfer == td.onTransfer && r.value.condition == td.condition &&
                      r.value.info == td.info
  {
    var goal :- match td.newState.value
      case Switch(es) =>
        var cs :- CasesOf(es);
        Ok(Cases(cs))
      case Target(arg) =>
        var a :- ValidateNewState(arg);
        Ok(One(a.s));
    Ok(StdTrans("", goal, ArgNames(td.trigger.value), td.onTransfer, td.condition, td.info))
  }

  /** The old states of a complete dictionary: its names with wildcards
      expanded against the machine's own states. */
  function OldNames(m: NamedTree, td: RawTrans): Result<seq<Path>>
    requires Complete(td)
  {
    Expanded(ArgNames(td.oldState.value), ObjectGetter(m), [], false)
  }

  /** The expansion of each complete dictionary's old states; a dictionary
      that is not complete is refused before anything is expanded. */
  function Expansions(m: NamedTree, tds: seq<RawTrans>): (r: seq<Result<seq<Path>>>)
    ensures |r| == |tds|
  {
    seq(|tds|, k requires 0 <= k < |tds| => if Complete(tds[k]) then OldNames(m, tds[k]) else Ok([]))
  }

  /** One dictionary standardised, given the expansion of its old states:
      one copy per old state, as its printed name, each with the target
      validated and the triggers listed. A dictionary without `old_state`,
      `new_state` or `trigger` is refused. The target is only validated
      once there is an old state to copy for. */
  function StandardOne(td: RawTrans, olds: Result<seq<Path>>): (r: Result<seq<StdTrans>>)
    ensures !Complete(td) ==> r == Err(MachineError)
    ensures r.Ok? ==> (Complete(td) && olds.Ok? && |r.value| == |olds.value| &&
                       forall i :: 0 <= i < |r.value| ==>
                         r.value[i].oldState == Print(olds.value[i]) &&
                         ValidGoal(r.value[i].newState) && r.value[i].triggers == ArgNames(td.trigger.value))
  {
    if !Complete(td) then Err(MachineError)
    else
      var ps :- olds;
      if |ps| == 0 then Ok([])
      else
        var x :- Template(td);
        Ok(seq(|ps|, i requires 0 <= i < |ps| => x.(oldState := Print(ps[i]))))
  }

  /** The dictionaries standardised in order, given their expansions. */
  function StandardizeWith(tds: seq<RawTrans>, es: seq<Result<seq<Path>>>): Result<seq<StdTrans>>
    requires |es| == |tds|
  {
    if |tds| == 0 then Ok([])
    else
      var init :- StandardizeWith(tds[..|tds| - 1], es[..|tds| - 1]);
      var last :- StandardOne(tds[|tds| - 1], es[|tds| - 1]);
      Ok(init + last)
  }

  /** `_standardize_all`. */
  function StandardizeAll(m: NamedTree, tds: seq<RawTrans>): Result<seq<StdTrans>>
  {
    StandardizeWith(tds, Expansions(m, tds))
  }

  /** A successful standardisation comes from complete dictionaries and
      holds only validated targets. */
  lemma {:induction false} StandardizeValid(tds: seq<RawTrans>, es: seq<Result<seq<Path>>>)
    requires |es| == |tds|
    ensures var r := StandardizeWith(tds, es);
            r.Ok? ==> (forall k :: 0 <= k < |tds| ==> Complete(tds[k])) &&
                      forall i :: 0 <= i < |r.value| ==> ValidGoal(r.value[i].newState)
  {
    if |tds| > 0 {
      var n := |tds| - 1;
      StandardizeValid(tds[..n], es[..n]);
      var r := StandardizeWith(tds, es);
      if r.Ok? {
        var init := StandardizeWith(tds[..n], es[..n]).value;
        var last := StandardOne(tds[n], es[n]).value;
        assert r.value == init + last;
        assert forall k :: 0 <= k < n ==> tds[..n][k] == tds[k];
        forall i | 0 <= i < |r.value|
          ensures ValidGoal(r.value[i].newState)
        {
          if i >= |init| {
            assert r.value[i] == last[i - |init|];
          }
        }
      }
    }
  }

  /** Standardisation stops at the first dictionary that fails: a
      dictionary without `old_state`, `new_state` or `trigger` stops the
      machine with MachineError as soon as it is reached. */
  lemma {:induction false} StandardizeFailEarly(tds: seq<RawTrans>, es: seq<Result<seq<Path>>>, k: nat)
    requires |es| == |tds| && k < |tds|
    requires StandardizeWith(tds[..k], es[..k]).Ok? && StandardOne(tds[k], es[k]).Err?
    ensures StandardizeWith(tds, es) == Err(StandardOne(tds[k], es[k]).error)
    ensures !Complete(tds[k]) ==> StandardizeWith(tds, es) == Err(MachineError)
  {
    var n := |tds| - 1;
    if k < n {
      assert tds[..n][..k] == tds[..k] && tds[..n][k] == tds[k];
      assert es[..n][..k] == es[..k] && es[..n][k] == es[k];
      StandardizeFailEarly(tds[..n], es[..n], k);
    } else {
      assert tds[..k] == tds[..|tds| - 1] && es[..k] == es[..|tds| - 1];
    }
  }

  /** The inner loop of `_standardize_all`: one copy of the dictionary per
      expanded old state name. */
  method StandardizeOne(td: RawTrans, olds: Result<seq<Path>>) returns (r: Result<seq<StdTrans>>)
    ensures r == StandardOne(td, olds)
  {
    if !Complete(td) {
      return Err(MachineError);
    }
    if olds.Err? {
      return Err(olds.error);
    }
    var added: seq<StdTrans> := [];
    for j := 0 to |olds.value|
      invariant j > 0 ==> Template(td).Ok?
      invariant Template(td).Ok? ==>
                  added == seq(j, i requires 0 <= i < j => Template(td).value.(oldState := Print(olds.value[i])))
    {
      var x := Template(td);
      if x.Err? {
        return Err(x.error);
      }
      added := added + [x.value.(oldState := Print(olds.value[j]))];
    }
    if |olds.value| == 0 {
      return Ok([]);
    }
    r := Ok(added);
  }

  /** `_standardize_all` with its loop over the dictionaries; the old
      states of each complete dictionary are expanded when it is reached. */
  method StandardizeTransitions(m: NamedTree, tds: seq<RawTrans>) returns (r: Result<seq<StdTrans>>)
    ensures r == StandardizeAll(m, tds)
  {
    var es := Expansions(m, tds);
    var out: seq<StdTrans> := [];
    for k := 0 to |tds|
      invariant StandardizeWith(tds[..k], es[..k]) == Ok(out)
    {
      assert tds[..k + 1][..k] == tds[..k] && tds[..k + 1][k] == tds[k];
      assert es[..k + 1][..k] == es[..k] && es[..k + 1][k] == es[k];
      var olds := if Complete(tds[k]) then OldNames(m, tds[k]) else Ok([]);
      assert olds == es[k];
      var one := StandardizeOne(tds[k], olds);
      if one.Err? {
        StandardizeFailEarly(tds, es, k);
        return Err(one.error);
      }
      out := out + one.value;
    }
    assert tds[..|tds|] == tds && es[..|tds|] == es;
    r := Ok(out);
  }

  /* ---------- _expand_switches ---------- */

  /** The transition a switch entry becomes: the dictionary's old state
      and triggers, the entry's target and condition, the dictionary's
      `on_transfer` extended by the entry's, and the entry's info when it
      has one. */
  function CaseTrans(x: StdTrans, c: Case): FlatTrans
  {
    FlatTrans(x.oldState, c.name, x.triggers, x.onTransfer + c.onTransfer, c.condition,
              if c.info.Some? then c.info.value else x.info)
  }

  /** The default a switch gets when its last entry is conditioned: back
      to the old state, unconditioned, without `on_transfer`. */
  function StayTrans(x: StdTrans): FlatTrans
  {
    FlatTrans(x.oldState, x.oldState, x.triggers, [], [], x.info)
  }

  /** One standardised dictionary expanded onto the list built so far. The
      test for a default reads the last element of that whole list, so a
      switch without entries looks at the previous dictionary's last
      transition, or raises IndexError when there is none. */
  function ExpandOne(x: StdTrans, acc: seq<FlatTrans>): Result<seq<FlatTrans>>
  {
    match x.newState
    case One(n) => Ok(acc + [FlatTrans(x.oldState, n, x.triggers, x.onTransfer, x.condition, x.info)])
    case Cases(cs) =>
      if |x.condition| > 0 then Err(MachineError)
      else
        var all := acc + seq(|cs|, i requires 0 <= i < |cs| => CaseTrans(x, cs[i]));
        if |all| == 0 then Err(IndexError)
        else if |all[|all| - 1].condition| > 0 then Ok(all + [StayTrans(x)])
        else Ok(all)
  }

  /** `_expand_switches`. */
  function ExpandSwitches(xs: seq<StdTrans>): Result<seq<FlatTrans>>
  {
    if |xs| == 0 then Ok([])
    else
      var acc :- ExpandSwitches(xs[..|xs| - 1]);
      ExpandOne(xs[|xs| - 1], acc)
  }

  /** A plain dictionary is kept as it is. A switch with a condition of its
      own is refused; otherwise its entries become transitions in order,
      and a default back to the old state follows exactly when the last
      entry is conditioned, so that the switch's transitions end in an
      unconditioned one. */
  lemma ExpandOneLaws(x: StdTrans, acc: seq<FlatTrans>)
    ensures var r := ExpandOne(x, acc);
            x.newState.One? ==>
              r == Ok(acc + [FlatTrans(x.oldState, x.newState.name, x.triggers, x.onTransfer, x.condition, x.info)])
    ensures var r := ExpandOne(x, acc);
            x.newState.Cases? && |x.condition| > 0 ==> r == Err(MachineError)
    ensures var r := ExpandOne(x, acc);
            x.newState.Cases? && |x.condition| == 0 && |x.newState.cases| > 0 ==>
              var cs := x.newState.cases;
              r.Ok? && |acc| + |cs| <= |r.value| <= |acc| + |cs| + 1 && r.value[..|acc|] == acc &&
              (forall i :: 0 <= i < |cs| ==> r.value[|acc| + i] == CaseTrans(x, cs[i])) &&
              (|r.value| == |acc| + |cs| + 1 <==> |cs[|cs| - 1].condition| > 0) &&
              (|r.value| == |acc| + |cs| + 1 ==> r.value[|acc| + |cs|] == StayTrans(x)) &&
              |r.value[|r.value| - 1].condition| == 0
  {
    if x.newState.Cases? && |x.condition| == 0 && |x.newState.cases| > 0 {
      var cs := x.newState.cases;
      var made := seq(|cs|, i requires 0 <= i < |cs| => CaseTrans(x, cs[i]));
      var all := acc + made;
      assert all[|all| - 1] == CaseTrans(x, cs[|cs| - 1]);
      assert forall i :: 0 <= i < |cs| ==> all[|acc| + i] == made[i];
      assert all[..|acc|] == acc;
      assert (all + [StayTrans(x)])[..|acc|] == acc;
    }
  }

  /** Expansion stops at the first dictionary that fails. */
  lemma {:induction false} ExpandSwitchesFailEarly(xs: seq<StdTrans>, k: nat)
    requires k < |xs| && ExpandSwitches(xs[..k]).Ok? && ExpandOne(xs[k], ExpandSwitches(xs[..k]).value).Err?
    ensures ExpandSwitches(xs) == Err(ExpandOne(xs[k], ExpandSwitches(xs[..k]).value).error)
  {
    var n := |xs| - 1;
    if k < n {
      assert xs[..n][..k] == xs[..k] && xs[..n][k] == xs[k];
      ExpandSwitchesFailEarly(xs[..n], k);
    } else {
      assert xs[..k] == xs[..|xs| - 1];
    }
  }

  /** `_expand_switches` with its loop over the dictionaries. */
  method ExpandSwitchesInOrder(xs: seq<StdTrans>) returns (r: Result<seq<FlatTrans>>)
    ensures r == ExpandSwitches(xs)
  {
    var out: seq<FlatTrans> := [];
    for k := 0 to |xs|
      invariant ExpandSwitches(xs[..k]) == Ok(out)
    {
      assert xs[..k + 1][..k] == xs[..k] && xs[..k + 1][k] == xs[k];
      var x := xs[k];
      match x.newState {
        case One(n) =>
          out := out + [FlatTrans(x.oldState, n, x.triggers, x.onTransfer, x.condition, x.info)];
        case Cases(cs) =>
          if |x.condition| > 0 {
            ExpandSwitchesFailEarly(xs, k);
            return Err(MachineError);
          }
          for j := 0 to |cs|
            invariant out == ExpandSwitches(xs[..k]).value + seq(j, i requires 0 <= i < j => CaseTrans(x, cs[i]))
          {
            out := out + [CaseTrans(x, cs[j])];
          }
          if |out| == 0 {
            ExpandSwitchesFailEarly(xs, k);
            return Err(IndexError);
          }
          if |out[|out| - 1].condition| > 0 {
            out := out + [StayTrans(x)];
          }
      }
    }
    assert xs[..|xs|] == xs;
    r := Ok(out);
  }

  /* ---------- _expand_and_create ---------- */

  /** A created transition and the callbacks its store is given. */
  datatype Made = Made(t: LegacyTransition, onTransfer: seq<Callback>, condition: seq<Callback>)

  /** Each dictionary paired with each of its triggers, in order. */
  function Pairs(xs: seq<FlatTrans>): seq<(FlatTrans, string)>
  {
    if |xs| == 0 then []
    else
      var x := xs[|xs| - 1];
      Pairs(xs[..|xs| - 1]) + seq(|x.triggers|, j requires 0 <= j < |x.triggers| => (x, x.triggers[j]))
  }

  /** The number of triggers the dictionaries name, counted per dictionary. */
  function TriggerCount(xs: seq<FlatTrans>): nat
  {
    if |xs| == 0 then 0 else TriggerCount(xs[..|xs| - 1]) + |xs[|xs| - 1].triggers|
  }

  /** There is one pair per trigger of each dictionary, and the pairs of
      a longer list of dictionaries extend those of a shorter one. */
  lemma {:induction false} PairsLaws(xs: seq<FlatTrans>, k: nat)
    requires k <= |xs|
    ensures |Pairs(xs)| == TriggerCount(xs)
    ensures |Pairs(xs[..k])| <= |Pairs(xs)| && Pairs(xs)[..|Pairs(xs[..k])|] == Pairs(xs[..k])
    ensures forall i :: 0 <= i < |Pairs(xs)| ==> Pairs(xs)[i].1 in Pairs(xs)[i].0.triggers
  {
    if |xs| > 0 {
      var n := |xs| - 1;
      if k <= n {
        PairsLaws(xs[..n], k);
        assert xs[..n][..k] == xs[..k];
      } else {
        assert xs[..k] == xs;
        PairsLaws(xs[..n], n);
      }
    } else {
      assert xs[..k] == xs;
    }
  }

  /** What a transition made for a pair is: at the level's base, with the
      pair's trigger and info, and the dictionary's ends as paths. */
  predicate TransFits(t: LegacyTransition, p: (FlatTrans, string), base: Path)
  {
    t.base == base && t.trigger == p.1 && t.info == p.0.info &&
    t.oldPath == Parse(p.0.oldState) && t.newPath == Parse(p.0.newState)
  }

  /** What a created transition is for the pair it was made from. */
  predicate Fits(y: Made, p: (FlatTrans, string), base: Path)
  {
    TransFits(y.t, p, base) && y.onTransfer == p.0.onTransfer && y.condition == p.0.condition
  }

  /** How a transition is created for a pair: `Transition(machine=self,
      trigger=trigger, **trans_dict)` on the machine whose states are `m`
      and whose full path is `base`. */
  type Creator = ((FlatTrans, string)) -> Result<LegacyTransition>

  function Maker(m: StateNode, base: Path): Creator
  {
    (p: (FlatTrans, string)) => Make(m, base, p.0.oldState, p.0.newState, p.1, p.0.info)
  }

  /** Every transition the machine's creator makes fits its pair. */
  lemma MakerFits(m: StateNode, base: Path)
    ensures forall p :: Maker(m, base)(p).Ok? ==> TransFits(Maker(m, base)(p).value, p, base)
  {
  }

  /** The result of creating a transition for each pair. */
  function Makes(mk: Creator, ps: seq<(FlatTrans, string)>): (r: seq<Result<LegacyTransition>>)
    ensures |r| == |ps| && forall i :: 0 <= i < |ps| ==> r[i] == mk(ps[i])
  {
    seq(|ps|, i requires 0 <= i < |ps| => mk(ps[i]))
  }

  /** The transitions made, in order, with the callbacks of their pairs;
      the first that could not be made gives the error. */
  function Collect(ps: seq<(FlatTrans, string)>, ts: seq<Result<LegacyTransition>>): (r: Result<seq<Made>>)
    requires |ts| == |ps|
    ensures r.Ok? <==> forall i :: 0 <= i < |ts| ==> ts[i].Ok?
    ensures r.Ok? ==> |r.value| == |ps| && forall i :: 0 <= i < |ps| ==>
                        r.value[i] == Made(ts[i].value, ps[i].0.onTransfer, ps[i].0.condition)
  {
    if |ps| == 0 then Ok([])
    else
      var n := |ps| - 1;
      assert forall i :: 0 <= i < n ==> ps[..n][i] == ps[i] && ts[..n][i] == ts[i];
      var init :- Collect(ps[..n], ts[..n]);
      var t :- ts[n];
      Ok(init + [Made(t, ps[n].0.onTransfer, ps[n].0.condition)])
  }

  /** `_expand_and_create`: one transition per trigger of each dictionary. */
  function Created(mk: Creator, xs: seq<FlatTrans>): Result<seq<Made>>
  {
    Collect(Pairs(xs), Makes(mk, Pairs(xs)))
  }

  /** Exactly one transition is created per trigger named, each with that
      trigger, the dictionary's ends as paths and its callbacks; creation
      fails exactly when one of them cannot be made. */
  lemma CreatedLaws(m: StateNode, base: Path, xs: seq<FlatTrans>)
    ensures var r := Created(Maker(m, base), xs); var ps := Pairs(xs);
            (r.Ok? <==> forall i :: 0 <= i < |ps| ==>
                          Make(m, base, ps[i].0.oldState, ps[i].0.newState, ps[i].1, ps[i].0.info).Ok?) &&
            (r.Ok? ==> |r.value| == TriggerCount(xs) &&
                       forall i :: 0 <= i < |r.value| ==> Fits(r.value[i], ps[i], base) && ps[i].1 in ps[i].0.triggers)
  {
    PairsLaws(xs, 0);
    MakerFits(m, base);
  }

  /** The pairs of one dictionary: itself with each of its triggers. */
  function TriggerPairs(x: FlatTrans): (r: seq<(FlatTrans, string)>)
    ensures |r| == |x.triggers| && forall j :: 0 <= j < |x.triggers| ==> r[j] == (x, x.triggers[j])
  {
    seq(|x.triggers|, j requires 0 <= j < |x.triggers| => (x, x.triggers[j]))
  }

  lemma PairsSnoc(xs: seq<FlatTrans>, x: FlatTrans)
    ensures Pairs(xs + [x]) == Pairs(xs) + TriggerPairs(x)
  {
    assert (xs + [x])[..|xs|] == xs;
  }

  /** Collecting two runs of pairs is collecting the first, then the
      second. */
  lemma {:induction false} CollectAppend(a: seq<(FlatTrans, string)>, ta: seq<Result<LegacyTransition>>,
                                         b: seq<(FlatTrans, string)>, tb: seq<Result<LegacyTransition>>)
    requires |ta| == |a| && |tb| == |b|
    ensures Collect(a + b, ta + tb) ==
            if Collect(a, ta).Err? then Collect(a, ta)
            else if Collect(b, tb).Err? then Err(Collect(b, tb).error)
            else Ok(Collect(a, ta).value + Collect(b, tb).value)
  {
    if |b| == 0 {
      assert a + b == a && ta + tb == ta;
      if Collect(a, ta).Ok? {
        assert Collect(a, ta).value + [] == Collect(a, ta).value;
      }
    } else {
      CollectAppend(a, ta, b[..|b| - 1], tb[..|b| - 1]);
      CollectAppendStep(a, ta, b, tb);
    }
  }

  lemma {:induction false} CollectAppendStep(a: seq<(FlatTrans, string)>, ta: seq<Result<LegacyTransition>>,
                                             b: seq<(FlatTrans, string)>, tb: seq<Result<LegacyTransition>>)
    requires |ta| == |a| && |tb| == |b| > 0
    requires var n := |b| - 1;
      Collect(a + b[..n], ta + tb[..n]) ==
        if Collect(a, ta).Err? then Collect(a, ta)
        else if Collect(b[..n], tb[..n]).Err? then Err(Collect(b[..n], tb[..n]).error)
        else Ok(Collect(a, ta).value + Collect(b[..n], tb[..n]).value)
    ensures Collect(a + b, ta + tb) ==
            if Collect(a, ta).Err? then Collect(a, ta)
            else if Collect(b, tb).Err? then Err(Collect(b, tb).error)
            else Ok(Collect(a, ta).value + Collect(b, tb).value)
  {
    var n := |b| - 1;
    assert (a + b)[..|a| + n] == a + b[..n] && (ta + tb)[..|a| + n] == ta + tb[..n];
    assert (a + b)[|a| + n] == b[n] && (ta + tb)[|a| + n] == tb[n];
    CollectLast(a + b, ta + tb);
    CollectLast(b, tb);
    var first, front := Collect(a, ta), Collect(b[..n], tb[..n]);
    if first.Err? {
      assert Collect(a + b, ta + tb) == first;
    } else if front.Err? {
      assert Collect(a + b, ta + tb) == Err(front.error) && Collect(b, tb) == front;
    } else if tb[n].Err? {
      assert Collect(a + b, ta + tb) == Err(tb[n].error) && Collect(b, tb) == Err(tb[n].error);
    } else {
      var m := [Made(tb[n].value, b[n].0.onTransfer, b[n].0.condition)];
      assert Collect(a + b, ta + tb) == Ok(first.value + front.value + m);
      assert Collect(b, tb) == Ok(front.value + m);
      Associative(first.value, front.value, m);
    }
  }

  /** Collecting a non-empty run: the run without its last pair, then the
      last transition. */
  lemma CollectLast(ps: seq<(FlatTrans, string)>, ts: seq<Result<LegacyTransition>>)
    requires |ts| == |ps| > 0
    ensures var n := |ps| - 1; var init := Collect(ps[..n], ts[..n]);
      Collect(ps, ts) ==
        if init.Err? then init
        else if ts[n].Err? then Err(ts[n].error)
        else Ok(init.value + [Made(ts[n].value, ps[n].0.onTransfer, ps[n].0.condition)])
  {
  }

  /** The first transition that cannot be made gives the error. */
  lemma {:induction false} CollectFirstError(ps: seq<(FlatTrans, string)>, ts: seq<Result<LegacyTransition>>, j: nat)
    requires |ts| == |ps| && j < |ts| && ts[j].Err? && forall i :: 0 <= i < j ==> ts[i].Ok?
    ensures Collect(ps, ts) == Err(ts[j].error)
  {
    var n := |ps| - 1;
    if j < n {
      CollectFirstError(ps[..n], ts[..n], j);
    } else {
      assert forall i :: 0 <= i < n ==> ts[..n][i] == ts[i];
    }
  }

  /** Creating for one more dictionary creates for the list so far, then
      for that dictionary. */
  lemma CreatedSnoc(mk: Creator, xs: seq<FlatTrans>, x: FlatTrans)
    ensures Created(mk, xs + [x]) ==
            var a, b := Created(mk, xs), Collect(TriggerPairs(x), Makes(mk, TriggerPairs(x)));
            if a.Err? then a else if b.Err? then Err(b.error) else Ok(a.value + b.value)
  {
    PairsSnoc(xs, x);
    assert Makes(mk, Pairs(xs) + TriggerPairs(x)) == Makes(mk, Pairs(xs)) + Makes(mk, TriggerPairs(x));
    CollectAppend(Pairs(xs), Makes(mk, Pairs(xs)), TriggerPairs(x), Makes(mk, TriggerPairs(x)));
  }

  /** Creation stops at the first dictionary that fails. */
  lemma {:induction false} CreatedFailEarly(mk: Creator, xs: seq<FlatTrans>, k: nat)
    requires k <= |xs| && Created(mk, xs[..k]).Err?
    ensures Created(mk, xs) == Created(mk, xs[..k])
  {
    if k < |xs| {
      var n := |xs| - 1;
      assert xs[..n][..k] == xs[..k];
      CreatedFailEarly(mk, xs[..n], k);
      assert xs == xs[..n] + [xs[n]];
      CreatedSnoc(mk, xs[..n], xs[n]);
    } else {
      assert xs[..k] == xs;
    }
  }

  /** The inner loop of `_expand_and_create`: one transition per trigger of
      one dictionary. */
  method CreateFor(mk: Creator, x: FlatTrans) returns (r: Result<seq<Made>>)
    ensures r == Collect(TriggerPairs(x), Makes(mk, TriggerPairs(x)))
  {
    ghost var ps := TriggerPairs(x);
    ghost var ts := Makes(mk, ps);
    var out: seq<Made> := [];
    for j := 0 to |x.triggers|
      invariant Collect(ps[..j], ts[..j]) == Ok(out)
    {
      assert ps[..j + 1][..j] == ps[..j] && ts[..j + 1][..j] == ts[..j];
      var t := mk((x, x.triggers[j]));
      if t.Err? {
        CollectFirstError(ps, ts, j);
        return Err(t.error);
      }
      out := out + [Made(t.value, x.onTransfer, x.condition)];
    }
    assert ps[..|ps|] == ps && ts[..|ts|] == ts;
    r := Ok(out);
  }

  /** `_expand_and_create` with its loop over the dictionaries. */
  method ExpandAndCreate(mk: Creator, xs: seq<FlatTrans>) returns (r: Result<seq<Made>>)
    ensures r == Created(mk, xs)
  {
    var out: seq<Made> := [];
    for k := 0 to |xs|
      invariant Created(mk, xs[..k]) == Ok(out)
    {
      assert xs[..k + 1] == xs[..k] + [xs[k]];
      CreatedSnoc(mk, xs[..k], xs[k]);
      var one := CreateFor(mk, xs[k]);
      if one.Err? {
        CreatedFailEarly(mk, xs, k + 1);
        return Err(one.error);
      }
      out := out + one.value;
    }
    assert xs[..|xs|] == xs;
    r := Ok(out);
  }

  /* ---------- _create_triggering and _check_triggering ---------- */

  /** The key transitions are filed under: old path and trigger. */
  function TriggerKey(y: Made): (Path, string)
  {
    (y.t.oldPath, y.t.trigger)
  }

  /** The key `_create_transitions` groups by: old path and new path. */
  function PairKey(y: Made): (Path, Path)
  {
    (y.t.oldPath, y.t.newPath)
  }

  /** The distinct keys of the objects, in order of first appearance, as
      the keys of a dictionary filled in that order are iterated. */
  function KeyOrder<T, K(==)>(objs: seq<T>, key: T -> K): seq<K>
  {
    if |objs| == 0 then []
    else
      var ks := KeyOrder(objs[..|objs| - 1], key);
      var k := key(objs[|objs| - 1]);
      if k in ks then ks else ks + [k]
  }

  function Flatten<T>(gs: seq<seq<T>>): seq<T>
  {
    if |gs| == 0 then [] else Flatten(gs[..|gs| - 1]) + gs[|gs| - 1]
  }

  /** The transitions in the order `_create_triggering` visits them: the
      (old path, new path) groups in order of each group's first
      transition, each group in order. */
  function Regrouped(made: seq<Made>): seq<Made>
  {
    var ks := KeyOrder(made, PairKey);
    Flatten(seq(|ks|, i requires 0 <= i < |ks| => Group(made, PairKey, ks[i])))
  }

  /** `_create_triggering` as written: the transitions filed by old path
      and trigger in the order of `Regrouped`. */
  function TriggeringAsWritten(made: seq<Made>): map<(Path, string), seq<Made>>
  {
    Grouping(Regrouped(made), TriggerKey)
  }

  /** Every transition of a group but the last is conditioned, so none is
      unreachable. */
  predicate Reachable(g: seq<Made>)
  {
    forall i :: 0 <= i < |g| - 1 ==> |g[i].condition| > 0
  }

  /** No two transitions of a group lead to the same state; states found
      by name are the same object exactly when their paths are equal. */
  predicate DistinctTargets(g: seq<Made>)
  {
    forall i, j :: 0 <= i < j < |g| ==> g[i].t.newPath != g[j].t.newPath
  }

  /** What `_check_triggering` accepts. No group needs to end in an
      unconditioned transition. */
  predicate TriggeringChecked(tr: map<(Path, string), seq<Made>>)
  {
    forall k :: k in tr ==> Reachable(tr[k]) && DistinctTargets(tr[k])
  }

  /** The checks of `_check_triggering` on one group: first that every
      transition but the last is conditioned, then that no target repeats. */
  method CheckTriggerGroup(g: seq<Made>) returns (ok: bool)
    ensures ok <==> Reachable(g) && DistinctTargets(g)
  {
    for i := 0 to if |g| > 0 then |g| - 1 else 0
      invariant forall a :: 0 <= a < i ==> |g[a].condition| > 0
    {
      if |g[i].condition| == 0 {
        return false;
      }
    }
    var seen: set<Path> := {};
    for i := 0 to |g|
      invariant seen == set a | 0 <= a < i :: g[a].t.newPath
      invariant forall a, b :: 0 <= a < b < i ==> g[a].t.newPath != g[b].t.newPath
    {
      if g[i].t.newPath in seen {
        return false;
      }
      seen := seen + {g[i].t.newPath};
    }
    return true;
  }

  /** `_check_triggering`: the filed transitions themselves, or
      MachineError. */
  method CheckTriggering(tr: map<(Path, string), seq<Made>>) returns (r: Result<map<(Path, string), seq<Made>>>)
    ensures r.Ok? <==> TriggeringChecked(tr)
    ensures r.Ok? ==> r.value == tr
    ensures r.Err? ==> r.error == MachineError
  {
    var todo := tr.Keys;
    while todo != {}
      invariant todo <= tr.Keys
      invariant forall k :: k in tr && k !in todo ==> Reachable(tr[k]) && DistinctTargets(tr[k])
      decreases |todo|
    {
      var k :| k in todo;
      var ok := CheckTriggerGroup(tr[k]);
      if !ok {
        return Err(MachineError);
      }
      todo := todo - {k};
    }
    return Ok(tr);
  }

  /** Groups of at most one transition: the only groups the check as
      written gets through. */
  predicate SingleGroups(tr: map<(Path, string), seq<Made>>)
  {
    forall k :: k in tr ==> |tr[k]| < 2
  }

  /** One group of `_check_triggering` as written: the test of every
      transition but the last reads `transition._condition`, an attribute
      no transition has, so `Callbacks.__getattr__` raises AttributeError on
      the first of them; a group of one is only checked for repeated
      targets, and passes. */
  method CheckTriggerGroupAsWritten(g: seq<Made>) returns (r: Result<()>)
    ensures r.Err? <==> |g| >= 2
    ensures r.Err? ==> r.error == AttributeError
  {
    if |g| > 1 {
      return Err(AttributeError);
    }
    var seen: set<Path> := {};
    for i := 0 to |g|
      invariant seen == set a | 0 <= a < i :: g[a].t.newPath
    {
      if g[i].t.newPath in seen {
        return Err(MachineError);
      }
      seen := seen + {g[i].t.newPath};
    }
    return Ok(());
  }

  /** `_check_triggering` as written: AttributeError as soon as a group of
      two or more transitions is reached, whatever the order of the groups;
      otherwise the filed transitions themselves. */
  method CheckTriggeringAsWritten(tr: map<(Path, string), seq<Made>>) returns (r: Result<map<(Path, string), seq<Made>>>)
    ensures r.Ok? <==> SingleGroups(tr)
    ensures r.Ok? ==> r.value == tr
    ensures r.Err? ==> r.error == AttributeError
  {
    var todo := tr.Keys;
    while todo != {}
      invariant todo <= tr.Keys
      invariant forall k :: k in tr && k !in todo ==> |tr[k]| < 2
      decreases |todo|
    {
      var k :| k in todo;
      var ok := CheckTriggerGroupAsWritten(tr[k]);
      if ok.Err? {
        return Err(ok.error);
      }
      todo := todo - {k};
    }
    return Ok(tr);
  }

  /** Every machine the check as written accepts, the corrected check
      accepts too; the converse fails for every trigger with a conditioned
      transition and a default: a conditioned `A` to `C` and a plain `A` to
      `B` on `x` pass the corrected check and raise AttributeError as
      written. */
  lemma ConditionedPairAsWritten(tr: map<(Path, string), seq<Made>>)
    ensures SingleGroups(tr) ==> TriggeringChecked(tr)
    ensures var g := [Sample("A", "C", "x", [Named("c")]), Sample("A", "B", "x", [])];
            var tr2 := map[TriggerKey(g[0]) := g];
            TriggeringChecked(tr2) && !SingleGroups(tr2)
  {
    var g := [Sample("A", "C", "x", [Named("c")]), Sample("A", "B", "x", [])];
    assert [Key("C")] != [Key("B")];
    assert Reachable(g) && DistinctTargets(g);
    var tr2 := map[TriggerKey(g[0]) := g];
    assert tr2.Keys == {TriggerKey(g[0])} && tr2[TriggerKey(g[0])] == g;
    assert |tr2[TriggerKey(g[0])]| == 2;
  }

  /** A transition with the given ends, trigger and condition, made at the
      top level of a machine. */
  function Sample(oldName: string, newName: string, trigger: string, condition: seq<Callback>): Made
  {
    Made(LegacyTransition([], [Key(oldName)], [Key(newName)], trigger, "", [], [], newName), [], condition)
  }

  /** Filing follows the (old path, new path) groups rather than the order
      the transitions were declared in. Declared in order: A to B on `y`;
      A to C on `x`, conditioned; A to B on `x`. The group for (A, `x`) is
      then [A to B, A to C], whose first, unconditioned transition makes
      `_check_triggering` refuse the machine, although in declaration
      order the group is valid: the conditioned transition first, its
      unconditioned fallback last. */
  lemma TriggerOrderAsWritten()
    ensures var made := [Sample("A", "B", "y", []), Sample("A", "C", "x", [Named("c")]), Sample("A", "B", "x", [])];
            !TriggeringChecked(TriggeringAsWritten(made)) && TriggeringChecked(Grouping(made, TriggerKey))
  {
    var m1, m2, m3 := Sample("A", "B", "y", []), Sample("A", "C", "x", [Named("c")]), Sample("A", "B", "x", []);
    assert [Key("B")] != [Key("C")];
    assert "x" != "y";
    RegroupedThree(m1, m2, m3);
    GroupingThree(m1, m3, m2, TriggerKey);
    var tw := TriggeringAsWritten([m1, m2, m3]);
    assert tw[TriggerKey(m3)] == [m3, m2];
    assert |tw[TriggerKey(m3)]| == 2 && tw[TriggerKey(m3)][0] == m3;
    assert |m3.condition| == 0;
    assert !Reachable(tw[TriggerKey(m3)]);
    GroupingThree(m1, m2, m3, TriggerKey);
    var tc := Grouping([m1, m2, m3], TriggerKey);
    assert tc == map[TriggerKey(m1) := [m1], TriggerKey(m2) := [m2, m3]];
    assert Reachable(tc[TriggerKey(m1)]) && DistinctTargets(tc[TriggerKey(m1)]);
    assert Reachable(tc[TriggerKey(m2)]);
    assert DistinctTargets(tc[TriggerKey(m2)]);
    assert forall k :: k in tc ==> k == TriggerKey(m1) || k == TriggerKey(m2);
  }

  /** With the first and last sharing their (old path, new path), the
      middle transition is visited last. */
  lemma RegroupedThree(m1: Made, m2: Made, m3: Made)
    requires PairKey(m1) == PairKey(m3) != PairKey(m2)
    ensures Regrouped([m1, m2, m3]) == [m1, m3, m2]
  {
    var made := [m1, m2, m3];
    var k1, k2 := PairKey(m1), PairKey(m2);
    KeyOrderThree(m1, m2, m3);
    GroupThree(m1, m2, m3);
    var gs := seq(2, i requires 0 <= i < 2 => Group(made, PairKey, [k1, k2][i]));
    assert gs == [[m1, m3], [m2]];
    FlattenPair([m1, m3], [m2]);
  }

  lemma KeyOrderThree(m1: Made, m2: Made, m3: Made)
    requires PairKey(m1) == PairKey(m3) != PairKey(m2)
    ensures KeyOrder([m1, m2, m3], PairKey) == [PairKey(m1), PairKey(m2)]
  {
    assert [m1, m2, m3][..2] == [m1, m2] && [m1, m2][..1] == [m1] && [m1][..0] == [];
    assert KeyOrder([m1], PairKey) == [PairKey(m1)];
    assert KeyOrder([m1, m2], PairKey) == [PairKey(m1), PairKey(m2)];
  }

  lemma GroupThree(m1: Made, m2: Made, m3: Made)
    requires PairKey(m1) == PairKey(m3) != PairKey(m2)
    ensures Group([m1, m2, m3], PairKey, PairKey(m1)) == [m1, m3]
    ensures Group([m1, m2, m3], PairKey, PairKey(m2)) == [m2]
  {
    var k1, k2 := PairKey(m1), PairKey(m2);
    assert [m1, m2, m3][..2] == [m1, m2] && [m1, m2][..1] == [m1] && [m1][..0] == [];
    assert Group([m1], PairKey, k1) == [m1] && Group([m1], PairKey, k2) == [];
    assert Group([m1, m2], PairKey, k1) == [m1] && Group([m1, m2], PairKey, k2) == [m2];
  }

  lemma FlattenPair<T>(x: seq<T>, y: seq<T>)
    ensures Flatten([x, y]) == x + y
  {
    assert [x, y][..1] == [x] && [x][..0] == [];
    assert Flatten([x]) == [] + x == x;
  }

  /** Filing three objects of which the last two share a key. */
  lemma GroupingThree<K>(a: Made, b: Made, c: Made, key: Made -> K)
    requires key(b) == key(c) != key(a)
    ensures Grouping([a, b, c], key) == map[key(a) := [a], key(b) := [b, c]]
  {
    assert [a, b, c][..2] == [a, b] && [a, b][..1] == [a] && [a][..0] == [];
    assert [a, b, c][2] == c && [a, b][1] == b && [a][0] == a;
    var g0: map<K, seq<Made>> := map[];
    assert Grouping([a], key) == g0[key(a) := [] + [a]];
    assert [] + [a] == [a];
    var g1 := map[key(a) := [a]];
    assert Grouping([a, b], key) == g1[key(b) := [] + [b]];
    assert [] + [b] == [b];
    var g2 := map[key(a) := [a], key(b) := [b]];
    assert Grouping([a, b, c], key) == g2[key(c) := [b] + [c]];
    assert [b] + [c] == [b, c];
  }

  /** Filing in declaration order (`Grouping`) keeps every transition under
      its own old path and trigger, each group in declaration order. */
  lemma FiledInOrder(made: seq<Made>, k: (Path, string))
    ensures var tr := Grouping(made, TriggerKey);
            (k in tr <==> exists i :: 0 <= i < |made| && TriggerKey(made[i]) == k) &&
            (k in tr ==> tr[k] == Group(made, TriggerKey, k) &&
                         forall y :: y in tr[k] ==> y in made && y.t.oldPath == k.0 && y.t.trigger == k.1)
  {
    GroupingAt(made, TriggerKey, k);
    GroupMembers(made, TriggerKey, k);
  }

  /* ---------- _create_transitions and _create_triggering, in declaration order ---------- */

  /** The created transitions filed by old path and trigger, each group in
      declaration order, then checked as `_check_triggering` does. */
  function Filing(made: seq<Made>): Result<map<(Path, string), seq<Made>>>
  {
    var tr := Grouping(made, TriggerKey);
    if TriggeringChecked(tr) then Ok(tr) else Err(MachineError)
  }

  /** `_create_transitions` followed by `_create_triggering` for the level
      whose states are `m` and whose full path is `base`. */
  function Filed(m: NamedTree, base: Path, tds: seq<RawTrans>): Result<map<(Path, string), seq<Made>>>
  {
    var std :- StandardizeAll(m, tds);
    var flat :- ExpandSwitches(std);
    var made :- Created(Maker(m, base), flat);
    Filing(made)
  }

  /** What the filed transitions of a level at `at` satisfy: every group is
      non-empty, passes the checks, and holds only transitions defined at
      that level under their own old path and trigger. */
  predicate FiledAt(tr: map<(Path, string), seq<Made>>, at: Path)
  {
    TriggeringChecked(tr) &&
    forall k :: k in tr ==> tr[k] != [] && forall y :: y in tr[k] ==> y.t.base == at && TriggerKey(y) == k
  }

  /** Filing accepts exactly the checked grouping, and what it keeps was
      made at the level. */
  lemma FilingLaws(made: seq<Made>, at: Path)
    requires forall y :: y in made ==> y.t.base == at
    ensures Filing(made).Ok? <==> TriggeringChecked(Grouping(made, TriggerKey))
    ensures Filing(made).Err? ==> Filing(made).error == MachineError
    ensures Filing(made).Ok? ==> FiledAt(Filing(made).value, at)
  {
    var tr := Grouping(made, TriggerKey);
    forall k | k in tr
      ensures tr[k] != [] && forall y: Made :: y in tr[k] ==> y.t.base == at && TriggerKey(y) == k
    {
      GroupingAt(made, TriggerKey, k);
      GroupMembers(made, TriggerKey, k);
    }
  }

  /** Every transition a level keeps was created there. */
  lemma FiledLaws(m: NamedTree, base: Path, tds: seq<RawTrans>)
    ensures Filed(m, base, tds).Ok? ==> FiledAt(Filed(m, base, tds).value, base)
  {
    var std := StandardizeAll(m, tds);
    if std.Ok? {
      var flat := ExpandSwitches(std.value);
      if flat.Ok? {
        var made := Created(Maker(m, base), flat.value);
        if made.Ok? {
          CreatedLaws(m, base, flat.value);
          var ys := made.value;
          forall y | y in ys
            ensures y.t.base == base
          {
            var i :| 0 <= i < |ys| && ys[i] == y;
          }
          FilingLaws(ys, base);
        }
      }
    }
  }

  /** `_create_transitions` and `_create_triggering` run in order: the
      stages of the transition dictionaries, then the grouping and its
      check. */
  method CreateTransitions(m: NamedTree, base: Path, tds: seq<RawTrans>)
    returns (r: Result<map<(Path, string), seq<Made>>>)
    ensures r == Filed(m, base, tds)
  {
    var std := StandardizeTransitions(m, tds);
    if std.Err? {
      return Err(std.error);
    }
    var flat := ExpandSwitchesInOrder(std.value);
    if flat.Err? {
      return Err(flat.error);
    }
    var made := ExpandAndCreate(Maker(m, base), flat.value);
    if made.Err? {
      return Err(made.error);
    }
    var tr := GroupBy(made.value, TriggerKey);
    r := CheckTriggering(tr);
  }

  /* ---------- the tree of states ---------- */

  /** A state's configuration: its name, its sub-states in declaration
      order and its transition dictionaries. */
  datatype Config = Config(name: string, states: seq<Config>, transitions: seq<RawTrans>)

  /** The names and nesting of the states a configuration declares. */
  function Shape(c: Config): (r: StateNode)
    ensures r.name == c.name && |r.subs| == |c.states|
    decreases c
  {
    StateNode(c.name, seq(|c.states|, i requires 0 <= i < |c.states| => Shape(c.states[i])))
  }

  /** A built state: a leaf, or a state with sub-states and its filed
      transitions. */
  datatype Level = Leaf(name: string) | Parent(name: string, subs: seq<Level>, triggering: map<(Path, string), seq<Made>>)

  /** A child state as `_create_states` builds it, below the level at `at`.
      Without sub-states it is a leaf, whose constructor does not accept
      `transitions` (TypeError, raised before its name is checked);
      otherwise its name is checked and it is a nested machine at
      `at + [name]`. */
  function BuildChild(c: Config, at: Path): Result<Level>
    requires WellNamed(Shape(c))
    decreases c, 2, 0
  {
    if |c.states| == 0 then
      if |c.transitions| > 0 then Err(TypeError)
      else
        var n :- ValidateName(c.name);
        Ok(Leaf(n))
    else
      var n :- ValidateName(c.name);
      BuildParent(c, at + [Key(n)])
  }

  /** `ParentState.__init__` for the level at `base`: its sub-states, then
      its transitions. */
  function BuildParent(c: Config, base: Path): Result<Level>
    requires WellNamed(Shape(c))
    decreases c, 1, 0
  {
    var subs :- BuildSubs(c, |c.states|, base);
    var tr :- Filed(Shape(c), base, c.transitions);
    Ok(Parent(c.name, subs, tr))
  }

  /** The first `n` sub-states, built in order; the first failure wins. */
  function BuildSubs(c: Config, n: nat, base: Path): Result<seq<Level>>
    requires WellNamed(Shape(c)) && n <= |c.states|
    decreases c, 0, n
  {
    if n == 0 then Ok([])
    else
      assert Shape(c).subs[n - 1] == Shape(c.states[n - 1]);
      var init :- BuildSubs(c, n - 1, base);
      var last :- BuildChild(c.states[n - 1], base);
      Ok(init + [last])
  }

  /** Building stops at the first sub-state that fails. */
  lemma {:induction false} BuildSubsFailEarly(c: Config, k: nat, n: nat, base: Path)
    requires WellNamed(Shape(c)) && k <= n <= |c.states|
    requires BuildSubs(c, k, base).Err?
    ensures BuildSubs(c, n, base) == BuildSubs(c, k, base)
    decreases n
  {
    if n > k {
      BuildSubsFailEarly(c, k, n - 1, base);
    }
  }

  /** `_create_states`: one state per configuration, in order. */
  method CreateStates(c: Config, base: Path) returns (r: Result<seq<Level>>)
    requires WellNamed(Shape(c))
    ensures r == BuildSubs(c, |c.states|, base)
  {
    var out: seq<Level> := [];
    for i := 0 to |c.states|
      invariant BuildSubs(c, i, base) == Ok(out)
    {
      assert Shape(c).subs[i] == Shape(c.states[i]);
      var child := BuildChild(c.states[i], base);
      if child.Err? {
        BuildSubsFailEarly(c, i + 1, |c.states|, base);
        return Err(child.error);
      }
      out := out + [child.value];
    }
    r := Ok(out);
  }

  /** A level at `at` and all levels below it keep only their own
      transitions, filed and checked, and name their sub-states. */
  ghost predicate Registered(l: Level, at: Path)
  {
    match l
    case Leaf(_) => true
    case Parent(_, subs, tr) =>
      FiledAt(tr, at) && forall i :: 0 <= i < |subs| ==> Registered(subs[i], at + [Key(subs[i].name)])
  }

  /** Every level built keeps the transitions made for it, and its
      sub-states carry the configured names. */
  lemma {:induction false} ParentRegistered(c: Config, base: Path)
    requires WellNamed(Shape(c)) && BuildParent(c, base).Ok?
    ensures BuildParent(c, base).value.name == c.name && Registered(BuildParent(c, base).value, base)
    decreases c, 1, 0
  {
    SubsRegistered(c, |c.states|, base);
    FiledLaws(Shape(c), base, c.transitions);
  }

  lemma {:induction false} SubsRegistered(c: Config, n: nat, base: Path)
    requires WellNamed(Shape(c)) && n <= |c.states| && BuildSubs(c, n, base).Ok?
    ensures var subs := BuildSubs(c, n, base).value;
            |subs| == n &&
            forall i :: 0 <= i < n ==> (subs[i].name == c.states[i].name &&
                                        Registered(subs[i], base + [Key(subs[i].name)]))
    decreases c, 0, n
  {
    if n > 0 {
      var child := c.states[n - 1];
      assert Shape(c).subs[n - 1] == Shape(child);
      SubsRegistered(c, n - 1, base);
      ChildRegistered(child, base);
      var init, last := BuildSubs(c, n - 1, base).value, BuildChild(child, base).value;
      var subs := BuildSubs(c, n, base).value;
      assert subs == init + [last];
      forall i | 0 <= i < n
        ensures subs[i].name == c.states[i].name && Registered(subs[i], base + [Key(subs[i].name)])
      {
        if i < n - 1 {
          assert subs[i] == init[i];
        } else {
          assert subs[i] == last;
        }
      }
    }
  }

  lemma {:induction false} ChildRegistered(c: Config, at: Path)
    requires WellNamed(Shape(c)) && BuildChild(c, at).Ok?
    ensures BuildChild(c, at).value.name == c.name && Registered(BuildChild(c, at).value, at + [Key(c.name)])
    decreases c, 2, 0
  {
    if |c.states| > 0 {
      ParentRegistered(c, at + [Key(c.name)]);
    }
  }

  /* ---------- _get_transitions ---------- */

  /** The position of the sub-state with the given name. */
  function LevelIndex(ls: seq<Level>, n: string): (r: Option<nat>)
    ensures r.Some? ==> r.value < |ls| && ls[r.value].name == n
    ensures r.None? ==> forall j :: 0 <= j < |ls| ==> ls[j].name != n
  {
    if |ls| == 0 then None
    else if ls[0].name == n then Some(0)
    else match LevelIndex(ls[1..], n)
      case Some(j) => Some(j + 1)
      case None => None
  }

  /** The length of the shortest non-empty prefix of `p` filed with the
      trigger, if any. */
  function FirstPrefix(tr: map<(Path, string), seq<Made>>, p: Path, trig: string, from: nat): (r: Option<nat>)
    requires 1 <= from
    ensures r.Some? ==> from <= r.value <= |p| && (p[..r.value], trig) in tr &&
                        forall j :: from <= j < r.value ==> (p[..j], trig) !in tr
    ensures r.None? ==> forall j :: from <= j <= |p| ==> (p[..j], trig) !in tr
    decreases |p| + 1 - from
  {
    if from > |p| then None
    else if (p[..from], trig) in tr then Some(from)
    else FirstPrefix(tr, p, trig, from + 1)
  }

  /** `_get_transitions(old_path, trigger)`: a leaf has no transitions
      (TransitionError); otherwise the prefixes of the old path are tried
      at this level, shortest first, and failing those the search goes on
      in the sub-state named by the first segment. An empty path has no
      first segment (IndexError) and a segment that is a number or names
      no sub-state is not found (KeyError). */
  function Candidates(l: Level, p: Path, trig: string): Result<seq<Made>>
  {
    match l
    case Leaf(_) => Err(TransitionError)
    case Parent(_, subs, tr) =>
      match FirstPrefix(tr, p, trig, 1)
      case Some(i) => Ok(tr[(p[..i], trig)])
      case None =>
        if |p| == 0 then Err(IndexError)
        else if p[0].Idx? then Err(KeyError)
        else match LevelIndex(subs, p[0].name)
          case None => Err(KeyError)
          case Some(j) => Candidates(subs[j], p[1..], trig)
  }

  /** `_get_transitions` with its loop over the prefixes. */
  method GetTransitions(l: Level, p: Path, trig: string) returns (r: Result<seq<Made>>)
    ensures r == Candidates(l, p, trig)
    decreases l
  {
    match l
    case Leaf(_) =>
      return Err(TransitionError);
    case Parent(_, subs, tr) =>
      for i := 1 to |p| + 1
        invariant forall j :: 1 <= j < i ==> (p[..j], trig) !in tr
      {
        if (p[..i], trig) in tr {
          return Ok(tr[(p[..i], trig)]);
        }
      }
      if |p| == 0 {
        return Err(IndexError);
      }
      if p[0].Idx? {
        return Err(KeyError);
      }
      var j := LevelIndex(subs, p[0].name);
      if j.None? {
        return Err(KeyError);
      }
      r := GetTransitions(subs[j.value], p[1..], trig);
  }

  /** In a registered tree the candidates for a trigger form a non-empty,
      checked group of transitions with that trigger, each leaving from a
      state on the way to the current one, below the level searched. */
  lemma {:induction false} CandidatesSound(l: Level, at: Path, p: Path, trig: string)
    requires Registered(l, at) && Candidates(l, p, trig).Ok?
    ensures var cs := Candidates(l, p, trig).value;
            cs != [] && Reachable(cs) && DistinctTargets(cs) &&
            forall y :: y in cs ==> y.t.trigger == trig && |at| < |From(y.t)| <= |at| + |p| &&
                                    From(y.t) == (at + p)[..|From(y.t)|]
  {
    match l
    case Parent(_, subs, tr) =>
      match FirstPrefix(tr, p, trig, 1)
      case Some(i) =>
        var k := (p[..i], trig);
        assert Reachable(tr[k]) && DistinctTargets(tr[k]);
        forall y | y in tr[k]
          ensures y.t.trigger == trig && |at| < |From(y.t)| <= |at| + |p| && From(y.t) == (at + p)[..|From(y.t)|]
        {
          assert y.t.base == at && y.t.oldPath == p[..i];
          assert From(y.t) == at + p[..i];
        }
      case None =>
        var j := LevelIndex(subs, p[0].name).value;
        var sub := subs[j];
        var next := at + [Key(sub.name)];
        CandidatesSound(sub, next, p[1..], trig);
        assert next + p[1..] == at + p;
  }

  /* ---------- trigger ---------- */

  /** The condition events of the candidates tried, in order. */
  function Conditions(cs: seq<Made>): seq<Event>
  {
    if |cs| == 0 then [] else Conditions(cs[..|cs| - 1]) + [Condition(From(cs[|cs| - 1].t), To(cs[|cs| - 1].t))]
  }

  /** Trying candidates only runs their conditions, which write nothing. */
  lemma {:induction false} ConditionsWriteNothing(cs: seq<Made>)
    ensures Writes(Conditions(cs)) == []
    decreases |cs|
  {
    if |cs| > 0 {
      var n := |cs| - 1;
      var c := [Condition(From(cs[n].t), To(cs[n].t))];
      ConditionsWriteNothing(cs[..n]);
      WritesAppend(Conditions(cs[..n]), c);
      assert c[..0] == [];
    }
  }

  /** The condition events of a candidate list that starts with `x`. */
  lemma {:induction false} ConditionsCons(x: Made, cs: seq<Made>)
    ensures Conditions([x] + cs) == [Condition(From(x.t), To(x.t))] + Conditions(cs)
    decreases |cs|
  {
    if |cs| > 0 {
      var n := |cs| - 1;
      ConditionsCons(x, cs[..n]);
      assert ([x] + cs)[..n + 1] == [x] + cs[..n];
    } else {
      assert [x] + cs == [x];
    }
  }

  /** The first candidate whose conditions all hold. */
  function FirstHolding(cs: seq<Made>, outcome: Callback -> bool): (r: Option<nat>)
    ensures r.Some? ==> r.value < |cs| && AllHold(cs[r.value].condition, outcome) &&
                        forall j :: 0 <= j < r.value ==> !AllHold(cs[j].condition, outcome)
    ensures r.None? ==> forall j :: 0 <= j < |cs| ==> !AllHold(cs[j].condition, outcome)
    ensures forall j :: 0 <= j < |cs| && cs[j].condition == [] ==> r.Some? && r.value <= j
  {
    if |cs| == 0 then None
    else if AllHold(cs[0].condition, outcome) then Some(0)
    else match FirstHolding(cs[1..], outcome)
      case Some(k) => Some(k + 1)
      case None => None
  }

  /** The callbacks a trigger runs on the candidates: each one's
      conditions, and the first that holds fires and ends the run. What a
      transition runs when it fires is `fire`; the machine uses `Fired`. */
  function Attempted(cs: seq<Made>, outcome: Callback -> bool, fire: LegacyTransition -> seq<Event>): seq<Event>
  {
    if |cs| == 0 then []
    else [Condition(From(cs[0].t), To(cs[0].t))] +
         (if AllHold(cs[0].condition, outcome) then fire(cs[0].t) else Attempted(cs[1..], outcome, fire))
  }

  /** The state after a trigger from state `s`: the first candidate that
      holds writes its target, unless it stays. */
  function Reached(cs: seq<Made>, outcome: Callback -> bool, s: string): string
  {
    if |cs| == 0 then s
    else if AllHold(cs[0].condition, outcome) then
      (if cs[0].t.oldPath != cs[0].t.newPath then cs[0].t.newStateName else s)
    else Reached(cs[1..], outcome, s)
  }

  /** Only the first candidate whose conditions hold fires: the conditions
      of every candidate up to it are checked, in order, and nothing after
      it runs. */
  lemma {:induction false} AttemptedFirst(cs: seq<Made>, outcome: Callback -> bool, fire: LegacyTransition -> seq<Event>,
                                          s: string, k: nat)
    requires k < |cs| && AllHold(cs[k].condition, outcome)
    requires forall j :: 0 <= j < k ==> !AllHold(cs[j].condition, outcome)
    ensures Attempted(cs, outcome, fire) == Conditions(cs[..k + 1]) + fire(cs[k].t)
    ensures Reached(cs, outcome, s) == if cs[k].t.oldPath != cs[k].t.newPath then cs[k].t.newStateName else s
  {
    ReachedFirst(cs, outcome, s, k);
    if k > 0 {
      var rest := cs[1..];
      assert rest[k - 1] == cs[k];
      assert forall j :: 0 <= j < k - 1 ==> rest[j] == cs[j + 1];
      AttemptedFirst(rest, outcome, fire, s, k - 1);
      AttemptedSkips(cs, outcome, fire, k);
    } else {
      assert cs[..1][..0] == [];
    }
  }

  /** A first candidate that does not hold adds only its condition before
      what the others run. */
  lemma AttemptedSkips(cs: seq<Made>, outcome: Callback -> bool, fire: LegacyTransition -> seq<Event>, k: nat)
    requires 0 < k < |cs| && !AllHold(cs[0].condition, outcome)
    requires Attempted(cs[1..], outcome, fire) == Conditions(cs[1..][..k]) + fire(cs[k].t)
    ensures Attempted(cs, outcome, fire) == Conditions(cs[..k + 1]) + fire(cs[k].t)
  {
    var c0 := [Condition(From(cs[0].t), To(cs[0].t))];
    assert Attempted(cs, outcome, fire) == c0 + Attempted(cs[1..], outcome, fire);
    ConditionsFront(cs, k);
    Associative(c0, Conditions(cs[1..][..k]), fire(cs[k].t));
  }

  /** The conditions of the first `k + 1` candidates: the first one's,
      then those of the next `k`. */
  lemma ConditionsFront(cs: seq<Made>, k: nat)
    requires 0 < k < |cs|
    ensures Conditions(cs[..k + 1]) == [Condition(From(cs[0].t), To(cs[0].t))] + Conditions(cs[1..][..k])
  {
    assert cs[..k + 1] == [cs[0]] + cs[1..][..k];
    ConditionsCons(cs[0], cs[1..][..k]);
  }

  lemma Associative<T>(a: seq<T>, b: seq<T>, c: seq<T>)
    ensures a + (b + c) == (a + b) + c
  {
  }

  lemma {:induction false} ReachedFirst(cs: seq<Made>, outcome: Callback -> bool, s: string, k: nat)
    requires k < |cs| && AllHold(cs[k].condition, outcome)
    requires forall j :: 0 <= j < k ==> !AllHold(cs[j].condition, outcome)
    ensures Reached(cs, outcome, s) == if cs[k].t.oldPath != cs[k].t.newPath then cs[k].t.newStateName else s
  {
    if k > 0 {
      assert !AllHold(cs[0].condition, outcome);
      assert forall j :: 0 <= j < k - 1 ==> cs[1..][j] == cs[j + 1];
      ReachedFirst(cs[1..], outcome, s, k - 1);
    }
  }

  /** When no candidate holds, only their conditions run and the state
      stays. */
  lemma {:induction false} AttemptedNone(cs: seq<Made>, outcome: Callback -> bool, fire: LegacyTransition -> seq<Event>,
                                         s: string)
    requires forall j :: 0 <= j < |cs| ==> !AllHold(cs[j].condition, outcome)
    ensures Attempted(cs, outcome, fire) == Conditions(cs) && Reached(cs, outcome, s) == s
  {
    if |cs| > 0 {
      assert !AllHold(cs[0].condition, outcome);
      assert forall j :: 0 <= j < |cs| - 1 ==> cs[1..][j] == cs[j + 1];
      AttemptedNone(cs[1..], outcome, fire, s);
      assert cs == [cs[0]] + cs[1..];
      ConditionsCons(cs[0], cs[1..]);
    }
  }

  /** A trigger writes the state at most once, and what it writes is the
      state it ends in; no write means the state is unchanged. */
  lemma AttemptedWrites(cs: seq<Made>, outcome: Callback -> bool, s: string)
    ensures var w := Writes(Attempted(cs, outcome, Fired));
            |w| <= 1 && (w == [] ==> Reached(cs, outcome, s) == s) && (w != [] ==> w == [Reached(cs, outcome, s)])
  {
    match FirstHolding(cs, outcome)
    case Some(k) =>
      AttemptedFirst(cs, outcome, Fired, s, k);
      ConditionsWriteNothing(cs[..k + 1]);
      FiredWrites(cs[k].t);
      WritesAppend(Conditions(cs[..k + 1]), Fired(cs[k].t));
    case None =>
      AttemptedNone(cs, outcome, Fired, s);
      ConditionsWriteNothing(cs);
  }

  /** One candidate tried: its callbacks are put in a store of their own
      and the transition is executed. */
  method TryCandidate(x: Made, h: Holder, outcome: Callback -> bool) returns (done: bool)
    modifies h
    ensures done == AllHold(x.condition, outcome)
    ensures h.trace == old(h.trace) + [Condition(From(x.t), To(x.t))] + (if done then Fired(x.t) else [])
    ensures h.state == if done && x.t.oldPath != x.t.newPath then x.t.newStateName else old(h.state)
  {
    var store := NewStore(x.onTransfer, x.condition);
    done := Execute(x.t, store, h, outcome);
  }

  /** The trace of a run that stops at candidate `i`, the first to hold. */
  lemma FiresAt(cs: seq<Made>, outcome: Callback -> bool, fire: LegacyTransition -> seq<Event>, s: string, i: nat,
                t0: seq<Event>, tr: seq<Event>)
    requires i < |cs| && AllHold(cs[i].condition, outcome)
    requires forall j :: 0 <= j < i ==> !AllHold(cs[j].condition, outcome)
    requires tr == t0 + Conditions(cs[..i]) + [Condition(From(cs[i].t), To(cs[i].t))] + fire(cs[i].t)
    ensures tr == t0 + Attempted(cs, outcome, fire)
    ensures Reached(cs, outcome, s) == if cs[i].t.oldPath != cs[i].t.newPath then cs[i].t.newStateName else s
  {
    AttemptedFirst(cs, outcome, fire, s, i);
    ConditionsPrefix(cs, i);
    Reassociated(t0, Conditions(cs[..i]), [Condition(From(cs[i].t), To(cs[i].t))], fire(cs[i].t));
  }

  /** One more candidate tried adds its condition to the trace. */
  lemma ConditionsPrefix(cs: seq<Made>, i: nat)
    requires i < |cs|
    ensures Conditions(cs[..i + 1]) == Conditions(cs[..i]) + [Condition(From(cs[i].t), To(cs[i].t))]
  {
    assert cs[..i + 1][..i] == cs[..i];
  }

  lemma Reassociated(a: seq<Event>, b: seq<Event>, c: seq<Event>, d: seq<Event>)
    ensures a + b + c + d == a + ((b + c) + d)
  {
  }

  /** The loop of `trigger`: the candidates run in order until one of them
      fires. */
  method RunCandidates(cs: seq<Made>, h: Holder, outcome: Callback -> bool)
    modifies h
    ensures h.trace == old(h.trace) + Attempted(cs, outcome, Fired)
    ensures h.state == Reached(cs, outcome, old(h.state))
  {
    ghost var s0 := h.state;
    ghost var t0 := h.trace;
    var i := 0;
    while i < |cs|
      invariant 0 <= i <= |cs|
      invariant forall j :: 0 <= j < i ==> !AllHold(cs[j].condition, outcome)
      invariant h.trace == t0 + Conditions(cs[..i]) && h.state == s0
    {
      var done := TryCandidate(cs[i], h, outcome);
      if done {
        FiresAt(cs, outcome, Fired, s0, i, t0, h.trace);
        return;
      }
      assert cs[..i + 1][..i] == cs[..i] && cs[..i + 1][i] == cs[i];
      i := i + 1;
    }
    assert cs[..i] == cs;
    AttemptedNone(cs, outcome, Fired, s0);
  }

  /** `trigger`: the candidates for the holder's current path are looked
      up and run; a failed lookup changes nothing. */
  method Trigger(l: Level, h: Holder, trig: string, outcome: Callback -> bool) returns (r: Result<()>)
    modifies h
    ensures var c := Candidates(l, Parse(old(h.state)), trig);
            (c.Err? ==> r == Err(c.error) && h.trace == old(h.trace) && h.state == old(h.state)) &&
            (c.Ok? ==> r == Ok(()) && h.trace == old(h.trace) + Attempted(c.value, outcome, Fired) &&
                       h.state == Reached(c.value, outcome, old(h.state)))
  {
    var found := GetTransitions(l, Parse(h.state), trig);
    if found.Err? {
      return Err(found.error);
    }
    RunCandidates(found.value, h, outcome);
    r := Ok(());
  }

  /* ---------- get_initial_path ---------- */

  /** A path with every segment turned into the name it looks up. */
  function KeyPath(p: Path): (r: Path)
    ensures |r| == |p| && forall i :: 0 <= i < |p| ==> r[i] == Key(SegString(p[i]))
  {
    seq(|p|, i requires 0 <= i < |p| => Key(SegString(p[i])))
  }

  /** `get_initial_path(initial)` on the root whose states are `m`: the
      full path of the first leaf below the state `initial` names. A name
      that is not found is a TransitionError; a segment below a leaf is
      TypeError; a root without states has no first state (IndexError)
      and finds no name. */
  function InitialPath(m: StateNode, initial: string): Result<Path>
  {
    var p := Parse(initial);
    if |m.subs| == 0 then (if |p| == 0 then Err(IndexError) else Err(TransitionError))
    else match ObjectAt(m, p)
      case Err(e) => Err(if e == KeyError then TransitionError else e)
      case Ok(s) => Ok(KeyPath(p) + FirstLeafPath(s))
  }

  /** A state found on a state object is found by the names of its path. */
  lemma {:induction false} ObjectAtByName(t: StateNode, p: Path)
    requires ObjectAt(t, p).Ok?
    ensures StateAt(t, KeyPath(p)) == ObjectAt(t, p)
  {
    if |p| > 0 {
      var c := StateTree.Lookup(t, p[0]).value;
      ObjectAtByName(c, p[1..]);
      assert KeyPath(p)[1..] == KeyPath(p[1..]);
    }
  }

  /** The initial path leads to a leaf, through the state named. */
  lemma InitialPathLeads(m: StateNode, initial: string)
    requires InitialPath(m, initial).Ok?
    ensures var r := InitialPath(m, initial).value; var p := Parse(initial);
            StateAt(m, r).Ok? && IsLeaf(StateAt(m, r).value) && |p| <= |r| && r[..|p|] == KeyPath(p)
  {
    var p := Parse(initial);
    var s := ObjectAt(m, p).value;
    ObjectAtByName(m, p);
    StateAtConcat(m, KeyPath(p), FirstLeafPath(s));
    FirstLeafPathLeads(s);
  }

  /** With no name given, the initial path is that of the machine's first
      leaf. */
  lemma InitialPathDefault(m: StateNode)
    ensures |m.subs| > 0 ==> InitialPath(m, "") == Ok(FirstLeafPath(m))
    ensures |m.subs| == 0 ==> InitialPath(m, "") == Err(IndexError)
  {
    assert Split("") == [""];
    assert Parse("") == [];
    assert ObjectAt(m, []) == Ok(m);
    assert KeyPath([]) + FirstLeafPath(m) == FirstLeafPath(m);
  }

  /** `StateMachine.__init__`: the levels are built from the root, whose
      name is not checked, and the initial path is that of the first
      leaf. */
  function NewMachine(c: Config): Result<(Level, Path)>
    requires WellNamed(Shape(c))
  {
    var root :- BuildParent(c, []);
    var initial :- InitialPath(Shape(c), "");
    Ok((root, initial))
  }

  /** A machine that is built keeps every transition at the level it was
      made on, and starts in a leaf. */
  lemma NewMachineLaws(c: Config)
    requires WellNamed(Shape(c))
    ensures NewMachine(c).Ok? ==>
              var (root, initial) := NewMachine(c).value;
              Registered(root, []) && StateAt(Shape(c), initial).Ok? && IsLeaf(StateAt(Shape(c), initial).value)
    ensures NewMachine(c).Ok? <==> BuildParent(c, []).Ok? && |c.states| > 0
  {
    if BuildParent(c, []).Ok? {
      ParentRegistered(c, []);
      InitialPathDefault(Shape(c));
      FirstLeafPathLeads(Shape(c));
    }
  }

  /* ---------- the descriptor ---------- */

  /** `obj.__dict__[key]`: the value stored under the key, if any. */
  function Stored(attrs: map<string, string>, key: Option<string>): (r: Result<string>)
    ensures r.Ok? <==> key.Some? && key.value in attrs
    ensures r.Ok? ==> r.value == attrs[key.value]
    ensures r.Err? ==> r.error == KeyError
  {
    if key.Some? && key.value in attrs then Ok(attrs[key.value]) else Err(KeyError)
  }

  /** `__set__`: the first assignment stores the state; any later one is
      refused, and a descriptor that was never named has no key to store
      under. */
  function Assigned(attrs: map<string, string>, key: Option<string>, v: string): Result<map<string, string>>
  {
    if key.None? then Err(TypeError)
    else if key.value in attrs then Err(AttributeError)
    else Ok(attrs[key.value := v])
  }

  /** A state can be assigned once: afterwards it reads back, every other
      attribute is as before, and a second assignment is refused. */
  lemma AssignOnce(attrs: map<string, string>, key: Option<string>, v: string, w: string)
    ensures Assigned(attrs, key, v).Ok? <==> key.Some? && Stored(attrs, key).Err?
    ensures Assigned(attrs, key, v).Ok? ==>
              var a := Assigned(attrs, key, v).value;
              Stored(a, key) == Ok(v) && Assigned(a, key, w) == Err(AttributeError) &&
              a.Keys == attrs.Keys + {key.value} && forall k :: k in attrs ==> a[k] == attrs[k]
  {
  }

  /** An object whose state a machine keeps in its attributes. */
  class Instance {
    var attrs: map<string, string>

    constructor ()
      ensures attrs == map[]
    {
      attrs := map[];
    }
  }

  /** The machine in its role as a class attribute: the name it was
      assigned to, and the key its objects keep their state under. */
  class Descriptor {
    var name: Option<string>
    var dictKey: Option<string>

    constructor ()
      ensures name == None && dictKey == None
    {
      name := None;
      dictKey := None;
    }

    /** `__set_name__`: the attribute name is checked, and the state is
        kept under that name with a leading underscore. */
    method SetName(n: string) returns (r: Result<()>)
      modifies this
      ensures r.Ok? <==> ValidateName(n).Ok?
      ensures r.Ok? ==> name == Some(n) && dictKey == Some("_" + n)
      ensures r.Err? ==> r.error == MachineError && name == old(name) && dictKey == old(dictKey)
    {
      var checked := ValidateName(n);
      if checked.Err? {
        return Err(checked.error);
      }
      name := Some(checked.value);
      dictKey := Some("_" + checked.value);
      return Ok(());
    }

    /** `__set__`. */
    method Set(obj: Instance, v: string) returns (r: Result<()>)
      modifies obj
      ensures var a := Assigned(old(obj.attrs), dictKey, v);
              (r.Ok? <==> a.Ok?) && (a.Err? ==> r.error == a.error) &&
              obj.attrs == (if a.Ok? then a.value else old(obj.attrs))
    {
      if dictKey.None? {
        return Err(TypeError);
      }
      if dictKey.value in obj.attrs {
        return Err(AttributeError);
      }
      obj.attrs := obj.attrs[dictKey.value := v];
      return Ok(());
    }

    /** `__get__` on an object. */
    method Get(obj: Instance) returns (r: Result<string>)
      ensures r == Stored(obj.attrs, dictKey)
    {
      if dictKey.Some? && dictKey.value in obj.attrs {
        return Ok(obj.attrs[dictKey.value]);
      }
      return Err(KeyError);
    }
  }
}
