/** The path helpers of states/normalize.py: expanding `*` wildcards and
    composite states into explicit state paths with work queues, and
    splitting a pair of paths at the state that contains both. A getter
    gives the sub-state names of the state a path names; states/machine.py
    and the normalisation pass each supply their own. */
module Normalize {
  import opened Wrappers
  import opened PathTools
  import opened StateTree

  /* ---------- validate_new_state ---------- */

  /** A target state as given: one name, or a list, tuple or set of them. */
  datatype StateArg = Name(s: string) | Several(names: seq<string>)

  /** `validate_new_state`: a target must be a single name without `*`. */
  function ValidateNewState(arg: StateArg): (r: Result<StateArg>)
    ensures r.Ok? <==> arg.Name? && '*' !in arg.s
    ensures r.Ok? ==> r.value == arg
    ensures r.Err? ==> r.error == MachineError
  {
    if arg.Several? || '*' in arg.s then Err(MachineError) else Ok(arg)
  }

  /* ---------- the getters ---------- */

  /** `config_getter` of `normalize_statemachine_config`, from `at[..k]` up
      to the root: the path is looked up below each enclosing state in turn
      ("move up, drill down"), and the full path of the first state found is
      the result. */
  function ResolveFrom(tree: StateNode, at: Path, p: Path, k: nat): (r: Result<Path>)
    requires k <= |at|
    ensures r.Ok? ==> ConfigAt(tree, r.value).Ok? && |p| <= |r.value| <= k + |p| &&
                      r.value == at[..|r.value| - |p|] + p
    ensures r.Err? ==> r.error == MachineError
    decreases k
  {
    if ConfigAt(tree, at[..k] + p).Ok? then Ok(at[..k] + p)
    else if k == 0 then Err(MachineError)
    else ResolveFrom(tree, at, p, k - 1)
  }

  /** `config_getter(path, conf)` for the state at `at`: the path below that
      state whenever it exists there, else below the nearest enclosing state
      that has it. */
  function Resolve(tree: StateNode, at: Path, p: Path): (r: Result<Path>)
    ensures r.Ok? ==> ConfigAt(tree, r.value).Ok? && |p| <= |r.value| <= |at| + |p| &&
                      r.value == at[..|r.value| - |p|] + p
    ensures ConfigAt(tree, at + p).Ok? ==> r == Ok(at + p)
    ensures r.Err? ==> r.error == MachineError
  {
    assert at[..|at|] == at;
    ResolveFrom(tree, at, p, |at|)
  }

  /** No anchor finds the path exactly when every lookup fails. */
  lemma {:induction false} ResolveFails(tree: StateNode, at: Path, p: Path, k: nat)
    requires k <= |at|
    ensures ResolveFrom(tree, at, p, k).Err? <==> forall j :: 0 <= j <= k ==> ConfigAt(tree, at[..j] + p).Err?
    decreases k
  {
    if k > 0 {
      ResolveFails(tree, at, p, k - 1);
    }
  }

  /** `config_getter` with its loop over the enclosing states. */
  method FindConfig(tree: StateNode, at: Path, p: Path) returns (r: Result<Path>)
    ensures r == Resolve(tree, at, p)
  {
    var k := |at|;
    assert at[..|at|] == at;
    while true
      invariant 0 <= k <= |at|
      invariant Resolve(tree, at, p) == ResolveFrom(tree, at, p, k)
      decreases k
    {
      if ConfigAt(tree, at[..k] + p).Ok? {
        return Ok(at[..k] + p);
      }
      if k == 0 {
        return Err(MachineError);
      }
      k := k - 1;
    }
  }

  /** The four getters the expansions are used with: `state_getter` of
      `normalize_statemachine_config` for the state at `at` of a
      configuration tree, a machine's `lambda p: self[p]`, which looks a
      path up from the machine itself, `states_getter` of
      states/standardize.py, which drills down from one configuration
      dictionary, and `state_getter` of the older machine
      (states/old_state_machine.py), which looks a path up with `get_in`
      and iterates the state found. Each gives the names of the sub-states
      of the state found; the last cannot iterate a state without
      sub-states (TypeError). */
  datatype Getter = ConfigGetter(tree: NamedTree, at: Path) | StateGetter(tree: NamedTree) | DictGetter(tree: NamedTree)
                  | ObjectGetter(tree: NamedTree)

  /** The sub-state names of the state a path names, or the error raised
      when there is no such state. */
  function Get(g: Getter, p: Path): Result<seq<string>>
  {
    match g
    case ConfigGetter(tree, at) =>
      var q :- Resolve(tree, at, p);
      Ok(SubNames(ConfigAt(tree, q).value))
    case StateGetter(tree) =>
      var s :- StateAt(tree, p);
      Ok(SubNames(s))
    case DictGetter(tree) =>
      var c :- ConfigAt(tree, p);
      Ok(SubNames(c))
    case ObjectGetter(tree) =>
      var s :- ObjectAt(tree, p);
      if IsLeaf(s) then Err(TypeError) else Ok(SubNames(s))
  }

  /** One more than the largest number of sub-states in the tree. */
  function Fan(g: Getter): nat
  {
    MaxFanout(g.tree) + 1
  }

  /** The height of the tree: no state below it has sub-states. */
  function Depth(g: Getter): nat
  {
    Height(g.tree)
  }

  /** A getter gives fewer than `Fan` names, none at `Depth` or below, and
      only canonical ones: this is what makes the work queues run out. */
  lemma GetBounded(g: Getter, p: Path)
    ensures Get(g, p).Ok? ==>
      |Get(g, p).value| < Fan(g) && (|Get(g, p).value| > 0 ==> |p| < Depth(g)) &&
      forall i :: 0 <= i < |Get(g, p).value| ==> CanonicalName(Get(g, p).value[i])
  {
    if Get(g, p).Ok? {
      match g
      case ConfigGetter(tree, at) =>
        var q := Resolve(tree, at, p).value;
        ConfigAtBounds(tree, q);
      case StateGetter(tree) =>
        StateAtBounds(tree, p);
      case DictGetter(tree) =>
        ConfigAtBounds(tree, p);
      case ObjectGetter(tree) =>
        ObjectAtBounds(tree, p);
    }
  }

  function Pow(b: nat, e: nat): (r: nat)
    ensures b > 0 ==> r > 0
  {
    if e == 0 then 1 else b * Pow(b, e - 1)
  }

  /* ---------- get_extended_paths ---------- */

  /** The share of the work left for a queued path: it cannot branch below
      depth `D`. */
  function Weight(p: Path, B: nat, D: nat): nat
  {
    if |p| < D then Pow(B, D - |p|) else 1
  }

  function QueueWeight(q: seq<Path>, B: nat, D: nat): nat
  {
    if |q| == 0 then 0 else Weight(q[0], B, D) + QueueWeight(q[1..], B, D)
  }

  lemma {:induction false} QueueWeightAppend(a: seq<Path>, b: seq<Path>, B: nat, D: nat)
    ensures QueueWeight(a + b, B, D) == QueueWeight(a, B, D) + QueueWeight(b, B, D)
  {
    if |a| > 0 {
      assert (a + b)[0] == a[0] && (a + b)[1..] == a[1..] + b;
      QueueWeightAppend(a[1..], b, B, D);
    } else {
      assert a + b == b;
    }
  }

  /** The paths of the sub-states: `head_path + tail_path` for each name. */
  function Children(p: Path, names: seq<string>): (r: seq<Path>)
    ensures |r| == |names| && forall i :: 0 <= i < |names| ==> r[i] == p + [Key(names[i])]
  {
    seq(|names|, i requires 0 <= i < |names| => p + [Key(names[i])])
  }

  lemma {:induction false} ChildrenWeightIs(p: Path, names: seq<string>, B: nat, D: nat)
    requires |p| < D
    ensures QueueWeight(Children(p, names), B, D) == |names| * Pow(B, D - |p| - 1)
  {
    if |names| > 0 {
      assert Children(p, names)[1..] == Children(p, names[1..]);
      ChildrenWeightIs(p, names[1..], B, D);
      MulSucc(|names| - 1, Pow(B, D - |p| - 1));
    }
  }

  /** Replacing a branching path by its sub-states lowers the total weight. */
  lemma ChildrenWeight(p: Path, names: seq<string>, B: nat, D: nat)
    requires |names| < B && |p| < D
    ensures QueueWeight(Children(p, names), B, D) < Weight(p, B, D)
  {
    ChildrenWeightIs(p, names, B, D);
    var x := Pow(B, D - |p| - 1);
    MulLess(|names|, B, x);
  }

  /** The leaves reached from the queued paths, breadth first: a path with
      sub-states is replaced by their paths at the back of the queue, a path
      without them is a result. */
  function ExtendQueue(q: seq<Path>, getter: Getter): Result<seq<Path>>
    decreases QueueWeight(q, Fan(getter), Depth(getter))
  {
    if |q| == 0 then Ok([])
    else
      var names :- Get(getter, q[0]);
      GetBounded(getter, q[0]);
      if |names| > 0 then
        ChildrenWeight(q[0], names, Fan(getter), Depth(getter));
        QueueWeightAppend(q[1..], Children(q[0], names), Fan(getter), Depth(getter));
        ExtendQueue(q[1..] + Children(q[0], names), getter)
      else
        var rest :- ExtendQueue(q[1..], getter);
        Ok([q[0]] + rest)
  }

  /** Each path of `ps` after `base`. */
  function Prefixed(base: Path, ps: seq<Path>): (r: seq<Path>)
    ensures |r| == |ps| && forall i :: 0 <= i < |ps| ==> r[i] == base + ps[i]
  {
    seq(|ps|, i requires 0 <= i < |ps| => base + ps[i])
  }

  /** `get_extended_paths`: the leaf paths under the given paths, after the
      base path. */
  function Extended(starts: seq<Path>, getter: Getter, base: Path): Result<seq<Path>>
  {
    var e :- ExtendQueue(starts, getter);
    Ok(Prefixed(base, e))
  }

  /** Every path found is a leaf: the getter gives it no sub-states. */
  lemma {:induction false} ExtendQueueLeaves(q: seq<Path>, getter: Getter)
    ensures ExtendQueue(q, getter).Ok? ==>
            forall i :: 0 <= i < |ExtendQueue(q, getter).value| ==>
              Get(getter, ExtendQueue(q, getter).value[i]) == Ok([])
    decreases QueueWeight(q, Fan(getter), Depth(getter))
  {
    if |q| > 0 && Get(getter, q[0]).Ok? {
      var names := Get(getter, q[0]).value;
      GetBounded(getter, q[0]);
      if |names| > 0 {
        ChildrenWeight(q[0], names, Fan(getter), Depth(getter));
        QueueWeightAppend(q[1..], Children(q[0], names), Fan(getter), Depth(getter));
        ExtendQueueLeaves(q[1..] + Children(q[0], names), getter);
      } else {
        ExtendQueueLeaves(q[1..], getter);
      }
    }
  }

  /** Extension adds canonical names only, so it brings in no wildcard. */
  lemma {:induction false} ExtendQueueNoWildcard(q: seq<Path>, getter: Getter)
    requires forall i :: 0 <= i < |q| ==> Wildcard !in q[i]
    ensures ExtendQueue(q, getter).Ok? ==>
            forall i :: 0 <= i < |ExtendQueue(q, getter).value| ==>
              Wildcard !in ExtendQueue(q, getter).value[i]
    decreases QueueWeight(q, Fan(getter), Depth(getter))
  {
    if |q| > 0 && Get(getter, q[0]).Ok? {
      var names := Get(getter, q[0]).value;
      GetBounded(getter, q[0]);
      if |names| > 0 {
        ChildrenWeight(q[0], names, Fan(getter), Depth(getter));
        QueueWeightAppend(q[1..], Children(q[0], names), Fan(getter), Depth(getter));
        var q' := q[1..] + Children(q[0], names);
        forall i | 0 <= i < |q'|
          ensures Wildcard !in q'[i]
        {
          if i >= |q| - 1 {
            assert q'[i] == q[0] + [Key(names[i - |q| + 1])];
          }
        }
        ExtendQueueNoWildcard(q', getter);
      } else {
        ExtendQueueNoWildcard(q[1..], getter);
      }
    }
  }

  /** The extended paths are leaves below the base path, and a leaf extends
      to itself alone. */
  lemma ExtendedLeaves(starts: seq<Path>, getter: Getter, base: Path)
    ensures var r := Extended(starts, getter, base);
            r.Ok? ==> forall i :: 0 <= i < |r.value| ==>
              r.value[i][..|base|] == base && Get(getter, r.value[i][|base|..]) == Ok([])
    ensures |starts| == 1 && Get(getter, starts[0]) == Ok([]) ==>
            Extended(starts, getter, base) == Ok([base + starts[0]])
  {
    ExtendQueueLeaves(starts, getter);
    var r := Extended(starts, getter, base);
    if r.Ok? {
      forall i | 0 <= i < |r.value|
        ensures r.value[i][..|base|] == base && r.value[i][|base|..] == ExtendQueue(starts, getter).value[i]
      {
        assert r.value[i] == base + ExtendQueue(starts, getter).value[i];
      }
    }
    if |starts| == 1 && Get(getter, starts[0]) == Ok([]) {
      assert starts[1..] == [];
      assert ExtendQueue(starts, getter) == Ok([starts[0]] + []);
      assert Prefixed(base, [starts[0]] + []) == [base + starts[0]];
    }
  }

  /** `Ok(pre + rest)` for a successful `r`, else the error of `r`. */
  function Then(pre: seq<Path>, r: Result<seq<Path>>): (t: Result<seq<Path>>)
    ensures pre == [] ==> t == r
  {
    if r.Ok? then
      assert pre == [] ==> pre + r.value == r.value;
      Ok(pre + r.value)
    else r
  }

  /** The inner loop of `get_extended_paths`: `head_path + tail_path` for
      each sub-state name, built with the path operator. */
  method AddChildren(headPath: Path, names: seq<string>) returns (added: seq<Path>)
    requires forall i :: 0 <= i < |names| ==> CanonicalName(names[i])
    ensures added == Children(headPath, names)
  {
    added := [];
    var i := 0;
    while i < |names|
      invariant 0 <= i <= |names|
      invariant added == Children(headPath, names[..i])
    {
      CanonicalNameParses(names[i]);
      assert Children(headPath, names[..i + 1]) == Children(headPath, names[..i]) + [headPath + [Key(names[i])]];
      added := added + [Add(headPath, StrArg(names[i]))];
      i := i + 1;
    }
    assert names[..i] == names;
  }

  /** `get_extended_paths` with its deque work queue. */
  method GetExtendedPaths(starts: seq<Path>, getter: Getter, base: Path)
    returns (r: Result<seq<Path>>)
    ensures r == Extended(starts, getter, base)
  {
    var extended: seq<Path> := [];
    ghost var found: seq<Path> := [];
    var queue := starts;
    while |queue| > 0
      invariant extended == Prefixed(base, found)
      invariant ExtendQueue(starts, getter) == Then(found, ExtendQueue(queue, getter))
      decreases QueueWeight(queue, Fan(getter), Depth(getter))
    {
      var headPath := queue[0];
      queue := queue[1..];
      var tailPaths := Get(getter, headPath);
      if tailPaths.Err? {
        return Err(tailPaths.error);
      }
      GetBounded(getter, headPath);
      if |tailPaths.value| > 0 {
        ChildrenWeight(headPath, tailPaths.value, Fan(getter), Depth(getter));
        QueueWeightAppend(queue, Children(headPath, tailPaths.value), Fan(getter), Depth(getter));
        var added := AddChildren(headPath, tailPaths.value);
        queue := queue + added;
      } else {
        ThenThen(found, [headPath], ExtendQueue(queue, getter));
        extended := extended + [base + headPath];
        found := found + [headPath];
      }
    }
    assert found + [] == found;
    r := Ok(extended);
  }

  /* ---------- get_expanded_paths ---------- */

  /** The wildcard segment. */
  const Wildcard: Seg := Key("*")

  /** The number of wildcard segments. */
  function Stars(p: Path): nat
  {
    if |p| == 0 then 0 else (if p[0] == Wildcard then 1 else 0) + Stars(p[1..])
  }

  lemma {:induction false} StarsAppend(a: Path, b: Path)
    ensures Stars(a + b) == Stars(a) + Stars(b)
  {
    if |a| > 0 {
      assert (a + b)[0] == a[0] && (a + b)[1..] == a[1..] + b;
      StarsAppend(a[1..], b);
    } else {
      assert a + b == b;
    }
  }

  lemma {:induction false} NoStars(p: Path)
    requires Wildcard !in p
    ensures Stars(p) == 0
  {
    if |p| > 0 {
      NoStars(p[1..]);
    }
  }

  /** The position of the first occurrence of a segment. */
  function FirstIndex(p: Path, k: Seg): (i: nat)
    requires k in p
    ensures i < |p| && p[i] == k && k !in p[..i]
  {
    if p[0] == k then 0
    else
      var i := 1 + FirstIndex(p[1..], k);
      assert p[..i] == [p[0]] + p[1..][..i - 1];
      i
  }

  /** The paths that replace the first wildcard by each sub-state name. */
  function Substituted(head: Path, names: seq<string>, tail: Path): (r: seq<Path>)
    ensures |r| == |names| && forall i :: 0 <= i < |names| ==> r[i] == head + [Key(names[i])] + tail
  {
    seq(|names|, i requires 0 <= i < |names| => head + [Key(names[i])] + tail)
  }

  function ExpandWeight(q: seq<Path>, B: nat): nat
  {
    if |q| == 0 then 0 else Pow(B, Stars(q[0])) + ExpandWeight(q[1..], B)
  }

  lemma {:induction false} ExpandWeightAppend(a: seq<Path>, b: seq<Path>, B: nat)
    ensures ExpandWeight(a + b, B) == ExpandWeight(a, B) + ExpandWeight(b, B)
  {
    if |a| > 0 {
      assert (a + b)[0] == a[0] && (a + b)[1..] == a[1..] + b;
      ExpandWeightAppend(a[1..], b, B);
    } else {
      assert a + b == b;
    }
  }

  lemma {:induction false} SubstitutedWeightIs(head: Path, names: seq<string>, tail: Path, B: nat)
    requires forall i :: 0 <= i < |names| ==> names[i] != "*"
    ensures ExpandWeight(Substituted(head, names, tail), B) == |names| * Pow(B, Stars(head) + Stars(tail))
  {
    if |names| > 0 {
      var x := Pow(B, Stars(head) + Stars(tail));
      assert Substituted(head, names, tail)[1..] == Substituted(head, names[1..], tail);
      StarsAppend(head + [Key(names[0])], tail);
      StarsAppend(head, [Key(names[0])]);
      assert Stars([Key(names[0])]) == 0;
      SubstitutedWeightIs(head, names[1..], tail, B);
      MulSucc(|names| - 1, x);
    }
  }

  lemma MulSucc(n: nat, x: nat)
    ensures (n + 1) * x == n * x + x
  {
  }

  lemma MulLess(a: nat, b: nat, x: nat)
    requires a < b && x > 0
    ensures a * x < b * x
  {
  }

  /** The stars of a path are those before and after a wildcard, plus one. */
  lemma StarsAround(p: Path, i: nat)
    requires i < |p| && p[i] == Wildcard
    ensures Stars(p) == Stars(p[..i]) + 1 + Stars(p[i + 1..])
  {
    assert p == p[..i] + ([Wildcard] + p[i + 1..]);
    StarsAppend(p[..i], [Wildcard] + p[i + 1..]);
    assert ([Wildcard] + p[i + 1..])[1..] == p[i + 1..];
  }

  lemma SubstitutedLess(head: Path, names: seq<string>, tail: Path, B: nat)
    requires |names| < B
    requires forall i :: 0 <= i < |names| ==> names[i] != "*"
    ensures ExpandWeight(Substituted(head, names, tail), B) < Pow(B, Stars(head) + Stars(tail) + 1)
  {
    var s := Stars(head) + Stars(tail);
    SubstitutedWeightIs(head, names, tail, B);
    MulLess(|names|, B, Pow(B, s));
  }

  /** Replacing a wildcard by the sub-state names lowers the total weight. */
  lemma SubstitutedWeight(p: Path, i: nat, names: seq<string>, B: nat)
    requires i < |p| && p[i] == Wildcard && |names| < B
    requires forall j :: 0 <= j < |names| ==> names[j] != "*"
    ensures ExpandWeight(Substituted(p[..i], names, p[i + 1..]), B) < Pow(B, Stars(p))
  {
    StarsAround(p, i);
    SubstitutedLess(p[..i], names, p[i + 1..], B);
  }

  /** The wildcard-free paths the queued paths expand to, in queue order;
      with `extend` each one is further extended to its leaves. */
  function ExpandQueue(q: seq<Path>, getter: Getter, base: Path, extend: bool): Result<seq<Path>>
    decreases ExpandWeight(q, Fan(getter))
  {
    if |q| == 0 then Ok([])
    else if Wildcard !in q[0] then
      NoStars(q[0]);
      var out :- if extend then Extended([q[0]], getter, base) else Ok([base + q[0]]);
      var rest :- ExpandQueue(q[1..], getter, base, extend);
      Ok(out + rest)
    else
      var i := FirstIndex(q[0], Wildcard);
      var names :- Get(getter, q[0][..i]);
      GetBounded(getter, q[0][..i]);
      SubstitutedWeight(q[0], i, names, Fan(getter));
      ExpandWeightAppend(q[1..], Substituted(q[0][..i], names, q[0][i + 1..]), Fan(getter));
      ExpandQueue(q[1..] + Substituted(q[0][..i], names, q[0][i + 1..]), getter, base, extend)
  }

  /** `state_name.replace(' ', '')`. */
  function RemoveSpaces(s: string): (r: string)
    ensures ' ' !in r
  {
    if |s| == 0 then "" else (if s[0] == ' ' then "" else [s[0]]) + RemoveSpaces(s[1..])
  }

  /** The paths of the given state names, spaces removed. */
  function NamePaths(names: seq<string>): (r: seq<Path>)
    ensures |r| == |names| && forall i :: 0 <= i < |names| ==> r[i] == Parse(RemoveSpaces(names[i]))
  {
    seq(|names|, i requires 0 <= i < |names| => Parse(RemoveSpaces(names[i])))
  }

  /** `get_expanded_paths`. */
  function Expanded(names: seq<string>, getter: Getter, base: Path, extend: bool): Result<seq<Path>>
  {
    ExpandQueue(NamePaths(names), getter, base, extend)
  }

  /** An expanded path: the base path followed by a path without wildcard,
      which is a leaf when paths are extended. */
  ghost predicate ExpandedPath(x: Path, base: Path, getter: Getter, extend: bool)
  {
    |base| <= |x| && x[..|base|] == base && Wildcard !in x[|base|..] &&
    (extend ==> Get(getter, x[|base|..]) == Ok([]))
  }

  ghost predicate AllExpanded(ps: seq<Path>, base: Path, getter: Getter, extend: bool)
  {
    forall i :: 0 <= i < |ps| ==> ExpandedPath(ps[i], base, getter, extend)
  }

  /** The expansion of one wildcard-free path is expanded paths. */
  lemma PlainExpanded(p: Path, getter: Getter, base: Path, extend: bool)
    requires Wildcard !in p
    ensures var out := if extend then Extended([p], getter, base) else Ok([base + p]);
            out.Ok? ==> AllExpanded(out.value, base, getter, extend)
  {
    if extend {
      var out := Extended([p], getter, base);
      if out.Ok? {
        var e := ExtendQueue([p], getter).value;
        ExtendQueueNoWildcard([p], getter);
        ExtendedLeaves([p], getter, base);
        forall j | 0 <= j < |out.value|
          ensures ExpandedPath(out.value[j], base, getter, extend)
        {
          assert out.value[j] == base + e[j];
          assert out.value[j][|base|..] == e[j];
        }
      }
    } else {
      assert (base + p)[..|base|] == base && (base + p)[|base|..] == p;
    }
  }

  lemma AllExpandedAppend(a: seq<Path>, b: seq<Path>, base: Path, getter: Getter, extend: bool)
    requires AllExpanded(a, base, getter, extend) && AllExpanded(b, base, getter, extend)
    ensures AllExpanded(a + b, base, getter, extend)
  {
    forall j | 0 <= j < |a + b|
      ensures ExpandedPath((a + b)[j], base, getter, extend)
    {
      if j >= |a| {
        assert (a + b)[j] == b[j - |a|];
      } else {
        assert (a + b)[j] == a[j];
      }
    }
  }

  /** No expanded path has a wildcard after the base path, and with
      extension each one ends in a leaf. */
  lemma {:induction false} ExpandQueueNoWildcard(q: seq<Path>, getter: Getter, base: Path, extend: bool)
    ensures var r := ExpandQueue(q, getter, base, extend);
            r.Ok? ==> AllExpanded(r.value, base, getter, extend)
    decreases ExpandWeight(q, Fan(getter))
  {
    if |q| > 0 {
      if Wildcard !in q[0] {
        NoStars(q[0]);
        ExpandQueuePlain(q, getter, base, extend);
        ExpandQueueNoWildcard(q[1..], getter, base, extend);
        PlainExpanded(q[0], getter, base, extend);
        var out := if extend then Extended([q[0]], getter, base) else Ok([base + q[0]]);
        var rest := ExpandQueue(q[1..], getter, base, extend);
        if out.Ok? && rest.Ok? {
          AllExpandedAppend(out.value, rest.value, base, getter, extend);
        }
      } else {
        var i := FirstIndex(q[0], Wildcard);
        ExpandQueueStar(q, getter, base, extend);
        if Get(getter, q[0][..i]).Ok? {
          var names := Get(getter, q[0][..i]).value;
          GetBounded(getter, q[0][..i]);
          SubstitutedWeight(q[0], i, names, Fan(getter));
          ExpandWeightAppend(q[1..], Substituted(q[0][..i], names, q[0][i + 1..]), Fan(getter));
          ExpandQueueNoWildcard(q[1..] + Substituted(q[0][..i], names, q[0][i + 1..]), getter, base, extend);
        }
      }
    }
  }

  lemma ThenThen(a: seq<Path>, b: seq<Path>, r: Result<seq<Path>>)
    ensures Then(a, Then(b, r)) == Then(a + b, r)
  {
    if r.Ok? {
      assert a + (b + r.value) == (a + b) + r.value;
    }
  }

  /** One step of the queue on a path without wildcard: its expansion, then
      the rest of the queue. */
  lemma ExpandQueuePlain(q: seq<Path>, getter: Getter, base: Path, extend: bool)
    requires |q| > 0 && Wildcard !in q[0]
    ensures var out := if extend then Extended([q[0]], getter, base) else Ok([base + q[0]]);
            ExpandQueue(q, getter, base, extend) ==
            if out.Err? then Err(out.error) else Then(out.value, ExpandQueue(q[1..], getter, base, extend))
  {
  }

  /** One step of the queue on a path with a wildcard: the paths that
      replace its first wildcard join the back of the queue. */
  lemma ExpandQueueStar(q: seq<Path>, getter: Getter, base: Path, extend: bool)
    requires |q| > 0 && Wildcard in q[0]
    ensures var i := FirstIndex(q[0], Wildcard);
            var names := Get(getter, q[0][..i]);
            ExpandQueue(q, getter, base, extend) ==
            if names.Err? then Err(names.error)
            else ExpandQueue(q[1..] + Substituted(q[0][..i], names.value, q[0][i + 1..]), getter, base, extend)
  {
  }

  /** The inner loop of `get_expanded_paths`: `head + name + tail` for each
      sub-state name, built with the path operators. */
  method Substitute(head: Path, names: seq<string>, tail: Path) returns (added: seq<Path>)
    requires forall i :: 0 <= i < |names| ==> CanonicalName(names[i])
    ensures added == Substituted(head, names, tail)
  {
    added := [];
    var j := 0;
    while j < |names|
      invariant 0 <= j <= |names|
      invariant added == Substituted(head, names[..j], tail)
    {
      CanonicalNameParses(names[j]);
      assert Substituted(head, names[..j + 1], tail) ==
             Substituted(head, names[..j], tail) + [head + [Key(names[j])] + tail];
      added := added + [Add(Add(head, StrArg(names[j])), PathArg(tail))];
      j := j + 1;
    }
    assert names[..j] == names;
  }

  /** The paths of the given state names, built one by one. */
  method ParseNames(names: seq<string>) returns (paths: seq<Path>)
    ensures paths == NamePaths(names)
  {
    paths := [];
    var k := 0;
    while k < |names|
      invariant 0 <= k <= |names| && paths == NamePaths(names)[..k]
    {
      paths := paths + [Parse(RemoveSpaces(names[k]))];
      k := k + 1;
    }
    assert NamePaths(names)[..k] == NamePaths(names);
  }

  /** `get_expanded_paths` with its deque work queue; each wildcard-free
      path is extended as soon as it is taken from the queue. */
  method GetExpandedPaths(names: seq<string>, getter: Getter, base: Path, extend: bool)
    returns (r: Result<seq<Path>>)
    ensures r == Expanded(names, getter, base, extend)
  {
    var statePaths := ParseNames(names);
    var expanded: seq<Path> := [];
    var queue := statePaths;
    while |queue| > 0
      invariant ExpandQueue(statePaths, getter, base, extend) == Then(expanded, ExpandQueue(queue, getter, base, extend))
      decreases ExpandWeight(queue, Fan(getter))
    {
      var path := queue[0];
      ghost var q := queue;
      queue := queue[1..];
      var head, _, tail := Partition(path, Wildcard);
      if head == path {
        assert Wildcard !in path;
        NoStars(path);
        ExpandQueuePlain(q, getter, base, extend);
        if extend {
          var more := GetExtendedPaths([path], getter, base);
          if more.Err? {
            return Err(more.error);
          }
          ThenThen(expanded, more.value, ExpandQueue(queue, getter, base, extend));
          expanded := expanded + more.value;
        } else {
          ThenThen(expanded, [base + path], ExpandQueue(queue, getter, base, extend));
          expanded := expanded + [base + path];
        }
      } else {
        var i := FirstIndex(path, Wildcard);
        assert head == path[..i] && tail == path[i + 1..] by {
          assert path[..|head|] == head && path[|head|] == Wildcard;
          assert |head| <= i;
        }
        ExpandQueueStar(q, getter, base, extend);
        var subNames := Get(getter, head);
        if subNames.Err? {
          return Err(subNames.error);
        }
        GetBounded(getter, head);
        var added := Substitute(head, subNames.value, tail);
        SubstitutedWeight(path, i, subNames.value, Fan(getter));
        ExpandWeightAppend(queue, added, Fan(getter));
        queue := queue + added;
      }
    }
    assert expanded + [] == expanded;
    r := Ok(expanded);
  }

  /* ---------- get_spliced_path and get_spliced_paths ---------- */

  /** `get_spliced_path`: `splice`, then, when one path is a prefix of the
      other, the last common segment moved back into both tails, so that
      both name a state below the common one. With nothing in common that
      last segment does not exist (IndexError), and an int segment cannot be
      turned into a path (TypeError). */
  function GetSplicedPath(oldPath: Path, newPath: Path): (r: Result<(Path, Path, Path)>)
  {
    var (c, ot, nt) := SpliceOf(oldPath, newPath);
    if |ot| > 0 && |nt| > 0 then Ok((c, ot, nt))
    else if |c| == 0 then Err(IndexError)
    else match c[|c| - 1]
      case Key(n) => Ok((c[..|c| - 1], Parse(n) + ot, Parse(n) + nt))
      case Idx(_) => Err(TypeError)
  }

  /** Both tails complete the common path to the given paths and are not
      empty; they start alike exactly when one path is a prefix of the
      other. */
  lemma SplicedPathLaws(oldPath: Path, newPath: Path)
    requires WellFormed(oldPath) && WellFormed(newPath)
    ensures var r := GetSplicedPath(oldPath, newPath);
            r.Ok? ==> r.value.0 + r.value.1 == oldPath && r.value.0 + r.value.2 == newPath &&
                      |r.value.1| > 0 && |r.value.2| > 0 &&
                      (r.value.1[0] == r.value.2[0] <==> oldPath <= newPath || newPath <= oldPath)
  {
    SpliceLaws(oldPath, newPath);
    var (c, ot, nt) := SpliceOf(oldPath, newPath);
    if |ot| > 0 && |nt| > 0 {
      assert oldPath[|c|] == ot[0] && newPath[|c|] == nt[0];
    } else if |c| > 0 && c[|c| - 1].Key? {
      var n := c[|c| - 1].name;
      assert c[|c| - 1] == oldPath[|c| - 1];
      CanonicalNameParses(n);
      assert c[..|c| - 1] + ([Key(n)] + ot) == c + ot;
      assert c[..|c| - 1] + ([Key(n)] + nt) == c + nt;
    }
  }

  /** The split fails only for an empty path or an int segment moved
      back. */
  lemma SplicedPathFails(oldPath: Path, newPath: Path)
    ensures |oldPath| == 0 || |newPath| == 0 ==> GetSplicedPath(oldPath, newPath) == Err(IndexError)
    ensures |oldPath| > 0 && |newPath| > 0 && (forall i :: 0 <= i < |oldPath| ==> oldPath[i].Key?) ==>
            GetSplicedPath(oldPath, newPath).Ok?
  {
    SpliceLaws(oldPath, newPath);
    var (c, ot, nt) := SpliceOf(oldPath, newPath);
    if |c| > 0 {
      assert c[|c| - 1] == oldPath[|c| - 1];
    }
  }

  /** A path spliced with itself splits off its last name. */
  lemma SplicedPathSame(p: Path)
    requires |p| > 0 && p[|p| - 1].Key? && WellFormed(p)
    ensures GetSplicedPath(p, p) == Ok((p[..|p| - 1], [p[|p| - 1]], [p[|p| - 1]]))
  {
    SpliceLaws(p, p);
    CanonicalNameParses(p[|p| - 1].name);
    assert [p[|p| - 1]] + [] == [p[|p| - 1]];
  }

  /** One splice per (old path, new path) pair, old paths outermost. The
      new name is expanded again for every old path, always to the same
      `news`, and not at all when there is no old path, so its failure only
      counts when there is one. */
  function SplicedPairs(olds: seq<Path>, news: Result<seq<Path>>): Result<seq<(Path, Path, Path)>>
  {
    if |olds| == 0 then Ok([])
    else
      var init :- SplicedPairs(olds[..|olds| - 1], news);
      var ns :- news;
      var row :- SpliceRow(olds[|olds| - 1], ns);
      Ok(init + row)
  }

  /** The splices of one old path with each new path, in order. */
  function SpliceRow(oldPath: Path, news: seq<Path>): (r: Result<seq<(Path, Path, Path)>>)
    ensures r.Ok? ==> |r.value| == |news| && forall j :: 0 <= j < |news| ==> GetSplicedPath(oldPath, news[j]) == Ok(r.value[j])
    ensures r.Err? <==> exists j :: 0 <= j < |news| && GetSplicedPath(oldPath, news[j]).Err?
  {
    if |news| == 0 then Ok([])
    else
      var init :- SpliceRow(oldPath, news[..|news| - 1]);
      var last :- GetSplicedPath(oldPath, news[|news| - 1]);
      Ok(init + [last])
  }

  /** A failure on a prefix of the old paths is the failure of them all. */
  lemma {:induction false} SplicedPairsFailEarly(olds: seq<Path>, k: nat, news: Result<seq<Path>>)
    requires k <= |olds| && SplicedPairs(olds[..k], news).Err?
    ensures SplicedPairs(olds, news) == SplicedPairs(olds[..k], news)
  {
    if k < |olds| {
      var init := olds[..|olds| - 1];
      assert init[..k] == olds[..k];
      SplicedPairsFailEarly(init, k, news);
    } else {
      assert olds[..k] == olds;
    }
  }

  /** `get_spliced_paths`. */
  function SplicedPaths(oldName: string, newName: string, getter: Getter, base: Path, extend: bool): Result<seq<(Path, Path, Path)>>
  {
    var olds :- Expanded([oldName], getter, base, extend);
    SplicedPairs(olds, Expanded([newName], getter, base, extend))
  }

  /** A failure on a prefix of the new paths is the failure of the row. */
  lemma {:induction false} SpliceRowFailEarly(oldPath: Path, news: seq<Path>, k: nat)
    requires k <= |news| && SpliceRow(oldPath, news[..k]).Err?
    ensures SpliceRow(oldPath, news) == SpliceRow(oldPath, news[..k])
  {
    if k < |news| {
      var init := news[..|news| - 1];
      assert init[..k] == news[..k];
      SpliceRowFailEarly(oldPath, init, k);
    } else {
      assert news[..k] == news;
    }
  }

  /** The inner loop of `get_spliced_paths`: one old path against each new
      path. */
  method SpliceEach(oldPath: Path, news: seq<Path>) returns (r: Result<seq<(Path, Path, Path)>>)
    ensures r == SpliceRow(oldPath, news)
  {
    var row: seq<(Path, Path, Path)> := [];
    var j := 0;
    while j < |news|
      invariant 0 <= j <= |news|
      invariant SpliceRow(oldPath, news[..j]) == Ok(row)
    {
      assert news[..j + 1][..j] == news[..j];
      var s := GetSplicedPath(oldPath, news[j]);
      if s.Err? {
        SpliceRowFailEarly(oldPath, news, j + 1);
        return Err(s.error);
      }
      row := row + [s.value];
      j := j + 1;
    }
    assert news[..j] == news;
    r := Ok(row);
  }

  /** One more old path adds its row of splices. */
  lemma SplicedPairsSnoc(olds: seq<Path>, i: nat, news: Result<seq<Path>>)
    requires i < |olds|
    ensures SplicedPairs(olds[..i + 1], news) ==
            (var init :- SplicedPairs(olds[..i], news);
             var ns :- news;
             var row :- SpliceRow(olds[i], ns);
             Ok(init + row))
  {
    assert olds[..i + 1][..i] == olds[..i];
  }

  /** `get_spliced_paths` with its nested loops. */
  method GetSplicedPaths(oldName: string, newName: string, getter: Getter, base: Path, extend: bool)
    returns (r: Result<seq<(Path, Path, Path)>>)
    ensures r == SplicedPaths(oldName, newName, getter, base, extend)
  {
    var olds := GetExpandedPaths([oldName], getter, base, extend);
    if olds.Err? {
      return Err(olds.error);
    }
    ghost var expected := Expanded([newName], getter, base, extend);
    var spliced: seq<(Path, Path, Path)> := [];
    var i := 0;
    while i < |olds.value|
      invariant 0 <= i <= |olds.value|
      invariant SplicedPairs(olds.value[..i], expected) == Ok(spliced)
    {
      SplicedPairsSnoc(olds.value, i, expected);
      var news := GetExpandedPaths([newName], getter, base, extend);
      if news.Err? {
        SplicedPairsFailEarly(olds.value, i + 1, expected);
        return Err(news.error);
      }
      var row := SpliceEach(olds.value[i], news.value);
      if row.Err? {
        SplicedPairsFailEarly(olds.value, i + 1, expected);
        return Err(row.error);
      }
      spliced := spliced + row.value;
      i := i + 1;
    }
    assert olds.value[..i] == olds.value;
    r := Ok(spliced);
  }
}
