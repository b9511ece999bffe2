/** The tree of states, shared by the configuration code and the machines:
    every state has a name and an ordered mapping of sub-states. A machine
    looks its sub-states up by name or by position (states/machine.py
    `__getitem__`), a configuration dictionary only by name. */
module StateTree {
  import opened Wrappers
  import opened PathTools

  /** A state and its sub-states, in declaration order. */
  datatype StateNode = StateNode(name: string, subs: seq<StateNode>)

  predicate IsLeaf(t: StateNode) { |t.subs| == 0 }

  /** The names of the sub-states, as iterating over a state yields them. */
  function SubNames(t: StateNode): (r: seq<string>)
    ensures |r| == |t.subs| && forall i :: 0 <= i < |r| ==> r[i] == t.subs[i].name
  {
    seq(|t.subs|, i requires 0 <= i < |t.subs| => t.subs[i].name)
  }

  /** A name that reads back as itself when a path is parsed, and that is
      not the wildcard. */
  predicate CanonicalName(n: string)
  {
    WellFormedSeg(Key(n)) && n != "*"
  }

  /** A canonical name parses to the one key it names. */
  lemma CanonicalNameParses(n: string)
    requires WellFormedSeg(Key(n))
    ensures Parse(n) == [Key(n)]
  {
    ParsePrint([Key(n)]);
    assert SegStrings([Key(n)]) == [n];
  }

  /** Sub-state names are canonical and distinct at every level. */
  predicate WellNamed(t: StateNode)
  {
    (forall i :: 0 <= i < |t.subs| ==> CanonicalName(t.subs[i].name) && WellNamed(t.subs[i])) &&
    (forall i, j :: 0 <= i < j < |t.subs| ==> t.subs[i].name != t.subs[j].name)
  }

  /** A tree whose names are canonical and distinct at every level. */
  type NamedTree = t: StateNode | WellNamed(t) witness StateNode("", [])

  /** The longest chain of sub-states below a state. */
  function Height(t: StateNode): nat
  {
    if |t.subs| == 0 then 0 else 1 + MaxHeight(t.subs)
  }

  function MaxHeight(ts: seq<StateNode>): (r: nat)
    ensures forall i :: 0 <= i < |ts| ==> Height(ts[i]) <= r
  {
    if |ts| == 0 then 0
    else
      var h := Height(ts[0]);
      var m := MaxHeight(ts[1..]);
      assert forall i :: 1 <= i < |ts| ==> ts[i] == ts[1..][i - 1];
      if h < m then m else h
  }

  /** The largest number of sub-states any state of the tree has. */
  function MaxFanout(t: StateNode): (r: nat)
    ensures |t.subs| <= r
  {
    var m := MaxSubFanout(t.subs);
    if |t.subs| < m then m else |t.subs|
  }

  function MaxSubFanout(ts: seq<StateNode>): (r: nat)
    ensures forall i :: 0 <= i < |ts| ==> MaxFanout(ts[i]) <= r
  {
    if |ts| == 0 then 0
    else
      var f := MaxFanout(ts[0]);
      var m := MaxSubFanout(ts[1..]);
      assert forall i :: 1 <= i < |ts| ==> ts[i] == ts[1..][i - 1];
      if f < m then m else f
  }

  /** The position of the first sub-state with the given name. */
  function IndexOf(ts: seq<StateNode>, n: string): (r: Option<nat>)
    ensures r.Some? ==> r.value < |ts| && ts[r.value].name == n &&
                        forall j :: 0 <= j < r.value ==> ts[j].name != n
    ensures r.None? ==> forall j :: 0 <= j < |ts| ==> ts[j].name != n
  {
    if |ts| == 0 then None
    else if ts[0].name == n then Some(0)
    else match IndexOf(ts[1..], n)
      case Some(i) => Some(i + 1)
      case None => None
  }

  /** `state[key]` for an int or a str: a name selects the sub-state of that
      name and raises KeyError if there is none; an int selects by position,
      counting from the end when negative, and raises IndexError when out of
      range. */
  function Child(t: StateNode, k: Seg): (r: Result<StateNode>)
    ensures k.Key? ==> (r.Ok? <==> k.name in SubNames(t)) && (r.Err? ==> r.error == KeyError) &&
                       (r.Ok? ==> r.value.name == k.name && r.value in t.subs)
    ensures k.Idx? ==> (r.Ok? <==> -|t.subs| <= k.index < |t.subs|) && (r.Err? ==> r.error == IndexError) &&
                       (r.Ok? ==> r.value == t.subs[if k.index < 0 then |t.subs| + k.index else k.index])
  {
    match k
    case Key(n) =>
      (match IndexOf(t.subs, n)
       case Some(i) => Ok(t.subs[i])
       case None => Err(KeyError))
    case Idx(i) =>
      if 0 <= i < |t.subs| then Ok(t.subs[i])
      else if -|t.subs| <= i < 0 then Ok(t.subs[|t.subs| + i])
      else Err(IndexError)
  }

  /** `path.get_in(state)`: the state reached by looking up each segment. */
  function StateAt(t: StateNode, p: Path): Result<StateNode>
  {
    if |p| == 0 then Ok(t)
    else
      var c :- Child(t, p[0]);
      StateAt(c, p[1..])
  }

  /** `config['states'][key]`: the sub-configurations form a dictionary keyed
      by name, so an int key is never found. */
  function SubConfig(t: StateNode, k: Seg): (r: Result<StateNode>)
    ensures r.Ok? <==> k.Key? && k.name in SubNames(t)
    ensures r.Err? ==> r.error == KeyError
    ensures r.Ok? ==> r.value == Child(t, k).value
  {
    if k.Idx? then Err(KeyError) else Child(t, k)
  }

  /** The configuration reached by looking up each name of a path. */
  function ConfigAt(t: StateNode, p: Path): Result<StateNode>
  {
    if |p| == 0 then Ok(t)
    else
      var c :- SubConfig(t, p[0]);
      ConfigAt(c, p[1..])
  }

  /** A sub-state found by its own name is the first one with that name,
      which in a well-named tree is that sub-state itself. */
  lemma ChildByName(t: StateNode, i: nat)
    requires i < |t.subs| && WellNamed(t)
    ensures Child(t, Key(t.subs[i].name)) == Ok(t.subs[i])
    ensures SubConfig(t, Key(t.subs[i].name)) == Ok(t.subs[i])
  {
    var j := IndexOf(t.subs, t.subs[i].name).value;
    assert j == i;
  }

  /** Extending a path by one name looks up that name in the state reached. */
  lemma {:induction false} ConfigAtAppend(t: StateNode, p: Path, k: Seg)
    ensures ConfigAt(t, p + [k]) == (var c :- ConfigAt(t, p); SubConfig(c, k))
  {
    if |p| > 0 {
      assert (p + [k])[1..] == p[1..] + [k];
      match SubConfig(t, p[0])
      case Ok(c) => ConfigAtAppend(c, p[1..], k);
      case Err(_) =>
    }
  }

  lemma {:induction false} StateAtAppend(t: StateNode, p: Path, k: Seg)
    ensures StateAt(t, p + [k]) == (var c :- StateAt(t, p); Child(c, k))
  {
    if |p| > 0 {
      assert (p + [k])[1..] == p[1..] + [k];
      match Child(t, p[0])
      case Ok(c) => StateAtAppend(c, p[1..], k);
      case Err(_) =>
    }
  }

  /** A state found by a path lies that many levels down: its height, its
      fanout and its names are bounded by those of the whole tree. */
  lemma {:induction false} StateAtBounds(t: StateNode, p: Path)
    requires StateAt(t, p).Ok?
    ensures var s := StateAt(t, p).value;
            Height(s) + |p| <= Height(t) && MaxFanout(s) <= MaxFanout(t) && (WellNamed(t) ==> WellNamed(s))
  {
    if |p| > 0 {
      var c := Child(t, p[0]).value;
      StateAtBounds(c, p[1..]);
    }
  }

  /** `Path.get_in` on a state object: subscripting a state without
      sub-states raises TypeError, and a key that is not found is tried
      once more as a string, so only names select. */
  function Lookup(t: StateNode, k: Seg): Result<StateNode>
  {
    if IsLeaf(t) then Err(TypeError) else Child(t, Key(SegString(k)))
  }

  function ObjectAt(t: StateNode, p: Path): Result<StateNode>
  {
    if |p| == 0 then Ok(t)
    else
      var c :- Lookup(t, p[0]);
      ObjectAt(c, p[1..])
  }

  lemma {:induction false} ObjectAtBounds(t: StateNode, p: Path)
    requires ObjectAt(t, p).Ok?
    ensures var s := ObjectAt(t, p).value;
            Height(s) + |p| <= Height(t) && MaxFanout(s) <= MaxFanout(t) && (WellNamed(t) ==> WellNamed(s))
  {
    if |p| > 0 {
      var c := Lookup(t, p[0]).value;
      ObjectAtBounds(c, p[1..]);
    }
  }

  lemma {:induction false} ConfigAtBounds(t: StateNode, p: Path)
    requires ConfigAt(t, p).Ok?
    ensures var s := ConfigAt(t, p).value;
            Height(s) + |p| <= Height(t) && MaxFanout(s) <= MaxFanout(t) && (WellNamed(t) ==> WellNamed(s))
  {
    if |p| > 0 {
      var c := SubConfig(t, p[0]).value;
      ConfigAtBounds(c, p[1..]);
    }
  }

  /** The path that keeps taking the first sub-state, by name, down to a
      leaf. */
  function FirstLeafPath(t: StateNode): (r: Path)
    ensures |r| <= Height(t)
  {
    if |t.subs| == 0 then [] else [Key(t.subs[0].name)] + FirstLeafPath(t.subs[0])
  }

  /** Following the first sub-state always ends in a leaf, found by name. */
  lemma {:induction false} FirstLeafPathLeads(t: StateNode)
    ensures StateAt(t, FirstLeafPath(t)).Ok? && IsLeaf(StateAt(t, FirstLeafPath(t)).value)
    ensures ConfigAt(t, FirstLeafPath(t)) == StateAt(t, FirstLeafPath(t))
  {
    if |t.subs| > 0 {
      var p := FirstLeafPath(t);
      assert IndexOf(t.subs, t.subs[0].name) == Some(0);
      assert p[1..] == FirstLeafPath(t.subs[0]);
      FirstLeafPathLeads(t.subs[0]);
    }
  }

  /** Any path a configuration is found at is made of sub-state names. */
  lemma {:induction false} ConfigAtWellFormed(t: StateNode, p: Path)
    requires WellNamed(t) && ConfigAt(t, p).Ok?
    ensures WellFormed(p)
  {
    if |p| > 0 {
      SubConfigStep(t, p[0]);
      ConfigAtWellFormed(SubConfig(t, p[0]).value, p[1..]);
      ConcatWellFormed([p[0]], p[1..]);
      assert p == [p[0]] + p[1..];
    }
  }

  /** One step down by name keeps the names canonical. */
  lemma SubConfigStep(t: StateNode, k: Seg)
    requires WellNamed(t) && SubConfig(t, k).Ok?
    ensures WellFormed([k]) && WellNamed(SubConfig(t, k).value)
  {
    var c := SubConfig(t, k).value;
    ConfigAtBounds(t, [k]);
    assert ConfigAt(t, [k]) == Ok(c);
  }

  /** Looking up a concatenation looks up its parts in turn. */
  lemma {:induction false} ConfigAtConcat(t: StateNode, p: Path, q: Path)
    ensures ConfigAt(t, p + q) == (var c :- ConfigAt(t, p); ConfigAt(c, q))
  {
    if |p| > 0 {
      assert (p + q)[0] == p[0] && (p + q)[1..] == p[1..] + q;
      match SubConfig(t, p[0])
      case Ok(c) => ConfigAtConcat(c, p[1..], q);
      case Err(_) =>
    } else {
      assert p + q == q;
    }
  }

  /** The first-leaf path is made of sub-state names. */
  lemma {:induction false} FirstLeafPathWellFormed(t: StateNode)
    requires WellNamed(t)
    ensures WellFormed(FirstLeafPath(t))
  {
    if |t.subs| > 0 {
      FirstLeafPathWellFormed(t.subs[0]);
    }
  }

  /** A path a state is found at is made of indexes and sub-state names. */
  lemma {:induction false} StateAtWellFormed(t: StateNode, p: Path)
    requires WellNamed(t) && StateAt(t, p).Ok?
    ensures WellFormed(p)
  {
    if |p| > 0 {
      var c := Child(t, p[0]).value;
      StateAtBounds(t, [p[0]]);
      assert StateAt(t, [p[0]]) == Ok(c);
      StateAtWellFormed(c, p[1..]);
      assert p == [p[0]] + p[1..];
    }
  }

  lemma {:induction false} StateAtConcat(t: StateNode, p: Path, q: Path)
    ensures StateAt(t, p + q) == (var c :- StateAt(t, p); StateAt(c, q))
  {
    if |p| > 0 {
      assert (p + q)[0] == p[0] && (p + q)[1..] == p[1..] + q;
      match Child(t, p[0])
      case Ok(c) => StateAtConcat(c, p[1..], q);
      case Err(_) =>
    } else {
      assert p + q == q;
    }
  }

  /** `state.path` of the state a path finds: the names of the states
      passed, so an index is replaced by the name of the sub-state at that
      position. */
  function NamePath(t: StateNode, p: Path): (r: Result<Path>)
    ensures r.Ok? <==> StateAt(t, p).Ok?
    ensures r.Err? ==> r.error == StateAt(t, p).error
    ensures r.Ok? ==> |r.value| == |p| && forall i :: 0 <= i < |p| ==> r.value[i].Key?
  {
    if |p| == 0 then Ok([])
    else
      var c :- Child(t, p[0]);
      var rest :- NamePath(c, p[1..]);
      Ok([Key(c.name)] + rest)
  }

  /** In a well-named tree the name path finds the same state, whether it
      is looked up as a state or as a configuration. */
  lemma {:induction false} NamePathFinds(t: StateNode, p: Path)
    requires WellNamed(t) && StateAt(t, p).Ok?
    ensures StateAt(t, NamePath(t, p).value) == StateAt(t, p)
    ensures ConfigAt(t, NamePath(t, p).value) == StateAt(t, p)
  {
    if |p| > 0 {
      var c := Child(t, p[0]).value;
      var i :| 0 <= i < |t.subs| && t.subs[i] == c;
      ChildByName(t, i);
      StateAtBounds(t, [p[0]]);
      assert StateAt(t, [p[0]]) == Ok(c);
      NamePathFinds(c, p[1..]);
      var q := NamePath(t, p).value;
      assert q[0] == Key(c.name) && q[1..] == NamePath(c, p[1..]).value;
    }
  }
}
