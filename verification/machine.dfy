/** The nested state machine of states/machine.py. The tree of states is
    fixed when the machine is built; every state keeps the transitions
    declared for it in two dictionaries (`triggering`, by old path and
    trigger, and `trans_dict`, by old and new path). Here the transitions
    of all states sit in one list, and each dictionary files the positions
    of that list under the owning state's path and the key, so a transition
    shared by several lists is one object, as in the source. */
module Machine {
  import opened Wrappers
  import opened PathTools
  import opened Trace
  import opened StateTree
  import opened Transitions
  import CallbackStore
  import Normalize

  /* ---------- _validate_name ---------- */

  /** The characters a state or machine name may not contain. */
  const Excluded: set<char> := {'.', '*', '[', ']', '(', ')'}

  /** A name made of white space only, as `name.strip()` finds it. */
  predicate Blank(s: string)
  {
    forall i :: 0 <= i < |s| ==> CallbackStore.IsSpace(s[i])
  }

  /** Stripping leaves nothing exactly when the string is blank. */
  lemma StripEmpty(s: string)
    ensures |CallbackStore.Strip(s)| == 0 <==> Blank(s)
  {
    StripLeftEmpty(s);
    var l := CallbackStore.StripLeft(s);
    if |l| > 0 {
      StripRightNonEmpty(l);
    }
  }

  lemma {:induction false} StripLeftEmpty(s: string)
    ensures |CallbackStore.StripLeft(s)| == 0 <==> Blank(s)
  {
    if |s| > 0 && CallbackStore.IsSpace(s[0]) {
      StripLeftEmpty(s[1..]);
      assert forall i :: 1 <= i < |s| ==> s[i] == s[1..][i - 1];
    }
  }

  lemma {:induction false} StripRightNonEmpty(s: string)
    requires |s| > 0 && !CallbackStore.IsSpace(s[0])
    ensures |CallbackStore.StripRight(s)| > 0
  {
    if |s| > 1 && CallbackStore.IsSpace(s[|s| - 1]) {
      StripRightNonEmpty(s[..|s| - 1]);
    }
  }

  /** `_validate_name`: no name at all is accepted; a name is refused with
      MachineError when it is blank, starts with an underscore or contains
      an excluded character, and is returned unchanged otherwise. */
  function ValidateName(name: Option<string>): (r: Result<Option<string>>)
    ensures r.Ok? ==> r == Ok(name)
    ensures r.Err? ==> r.error == MachineError
    ensures r.Ok? <==> name.None? ||
                       (!Blank(name.value) && name.value[0] != '_' &&
                        forall i :: 0 <= i < |name.value| ==> name.value[i] !in Excluded)
  {
    match name
    case None => Ok(None)
    case Some(n) =>
      StripEmpty(n);
      if |CallbackStore.Strip(n)| == 0 then Err(MachineError)
      else if n[0] == '_' then Err(MachineError)
      else if exists i :: 0 <= i < |n| && n[i] in Excluded then Err(MachineError)
      else Ok(name)
  }

  /** An accepted name that `int` refuses is one segment of a path: parsing
      it gives back the name as a key. A name `int` accepts, such as "1",
      is accepted too, and then parses to an index. */
  lemma AcceptedNameIsKey(n: string)
    requires ValidateName(Some(n)).Ok?
    ensures ParseInt(n).None? ==> Parse(n) == [Key(n)]
    ensures ParseInt(n).Some? ==> Parse(n) == [Idx(ParseInt(n).value)]
  {
    assert |n| > 0;
    assert Separator !in n;
    SplitWord(n, "");
    assert n + "" == n;
    assert Split(n) == [n];
    assert Segments([n]) == [Validate(n)] + Segments([n][1..]);
  }

  /* ---------- default_path ---------- */

  /** `default_path`: the loop that keeps taking the first sub-state. The
      path ends in a leaf, is empty for a leaf, and is made of names. */
  method DefaultPath(s: StateNode) returns (r: Path)
    ensures r == FirstLeafPath(s)
    ensures StateAt(s, r).Ok? && IsLeaf(StateAt(s, r).value)
    ensures IsLeaf(s) <==> r == []
  {
    var state := s;
    r := [];
    while |state.subs| > 0
      invariant r + FirstLeafPath(state) == FirstLeafPath(s)
      decreases Height(state)
    {
      assert Height(state.subs[0]) < Height(state);
      state := state.subs[0];
      r := r + [Key(state.name)];
    }
    FirstLeafPathLeads(s);
  }

  /* ---------- create_transition ---------- */

  /** A transition as a state's configuration declares it, after
      normalisation: names relative to that state. */
  datatype Decl = Decl(
    oldState: string, newState: string, trigger: string,
    onTransfer: seq<Callback>, condition: seq<Callback>, info: string)

  /** Where `create_transition` lands, starting at the state `node` whose
      name path is `at`: while the spliced paths have a common part, the
      call moves down to the state there with the tails. The result is the
      owner's name path, the owner, and the old and new tails. The source
      passes the tails on as strings that are parsed again, which gives the
      same paths back (ParsePrint). */
  function Placement(node: StateNode, at: Path, o: Path, n: Path): (r: Result<(Path, StateNode, Path, Path)>)
    requires WellFormed(o) && WellFormed(n)
    decreases |o|
  {
    Normalize.SplicedPathLaws(o, n);
    var sp :- Normalize.GetSplicedPath(o, n);
    if |sp.0| > 0 then
      var sub :- StateAt(node, sp.0);
      assert forall i :: 0 <= i < |sp.1| ==> sp.1[i] == o[|sp.0| + i];
      assert forall i :: 0 <= i < |sp.2| ==> sp.2[i] == n[|sp.0| + i];
      Placement(sub, at + NamePath(node, sp.0).value, sp.1, sp.2)
    else
      Ok((at, node, sp.1, sp.2))
  }

  /** The owner lies at or below the starting state, and the tails name,
      from the owner, the states the paths name from the start. Below the
      owner the tails part at once, unless one contains the other. */
  lemma {:induction false} PlacementFinds(tree: NamedTree, at: Path, node: StateNode, o: Path, n: Path)
    requires StateAt(tree, at) == Ok(node) && WellFormed(o) && WellFormed(n)
    requires Placement(node, at, o, n).Ok?
    ensures var pl := Placement(node, at, o, n).value;
            at <= pl.0 && StateAt(tree, pl.0) == Ok(pl.1) &&
            StateAt(pl.1, pl.2) == StateAt(node, o) && StateAt(pl.1, pl.3) == StateAt(node, n) &&
            |pl.2| > 0 && |pl.3| > 0 && (pl.2[0] == pl.3[0] <==> pl.2 <= pl.3 || pl.3 <= pl.2)
    decreases |o|
  {
    Normalize.SplicedPathLaws(o, n);
    var sp := Normalize.GetSplicedPath(o, n).value;
    if |sp.0| > 0 {
      var sub := StateAt(node, sp.0).value;
      var names := NamePath(node, sp.0).value;
      PlacementStep(tree, at, node, o, n);
      assert Placement(node, at, o, n) == Placement(sub, at + names, sp.1, sp.2);
      PlacementFinds(tree, at + names, sub, sp.1, sp.2);
    } else {
      assert sp.1 == o && sp.2 == n;
    }
  }

  /** One step down: the state at the common part, found by its names, and
      the tails find from there what the paths find from the start. */
  lemma PlacementStep(tree: NamedTree, at: Path, node: StateNode, o: Path, n: Path)
    requires StateAt(tree, at) == Ok(node) && WellFormed(o) && WellFormed(n)
    requires Normalize.GetSplicedPath(o, n).Ok? && |Normalize.GetSplicedPath(o, n).value.0| > 0
    requires StateAt(node, Normalize.GetSplicedPath(o, n).value.0).Ok?
    ensures var sp := Normalize.GetSplicedPath(o, n).value;
            var sub := StateAt(node, sp.0).value;
            var names := NamePath(node, sp.0).value;
            StateAt(tree, at + names) == Ok(sub) && at <= at + names &&
            WellFormed(sp.1) && WellFormed(sp.2) && |sp.1| < |o| &&
            StateAt(sub, sp.1) == StateAt(node, o) && StateAt(sub, sp.2) == StateAt(node, n)
  {
    Normalize.SplicedPathLaws(o, n);
    var sp := Normalize.GetSplicedPath(o, n).value;
    TailsFind(node, sp.0, sp.1, o);
    TailsFind(node, sp.0, sp.2, n);
    DownByName(tree, at, node, sp.0);
  }

  /** A tail after a common part finds from the state there what the whole
      path finds. */
  lemma TailsFind(node: StateNode, c: Path, t: Path, p: Path)
    requires c + t == p && WellFormed(p) && StateAt(node, c).Ok?
    ensures WellFormed(t) && |t| == |p| - |c| && StateAt(StateAt(node, c).value, t) == StateAt(node, p)
  {
    assert forall i :: 0 <= i < |t| ==> t[i] == p[|c| + i];
    StateAtConcat(node, c, t);
  }

  /** The state a path finds from the state at `at` is found from the root
      by `at` followed by the names along the path. */
  lemma DownByName(tree: NamedTree, at: Path, node: StateNode, c: Path)
    requires StateAt(tree, at) == Ok(node) && StateAt(node, c).Ok?
    ensures StateAt(tree, at + NamePath(node, c).value) == StateAt(node, c)
  {
    StateAtBounds(tree, at);
    NamePathFinds(node, c);
    StateAtConcat(tree, at, NamePath(node, c).value);
  }

  /** One stored transition: the name path of the state whose dictionaries
      hold it, its old and new tails from there, and the transition with
      the name paths of both ends. */
  datatype Stored = Stored(at: Path, oldTail: Path, newTail: Path, transition: Transition)

  /** `create_transition` on the state at `at`, as a value: push down,
      then look both ends up from the owner (KeyError or IndexError when
      one is missing). */
  function Created(tree: NamedTree, at: Path, d: Decl): Result<Stored>
  {
    var node :- StateAt(tree, at);
    ParseWellFormed(d.oldState);
    ParseWellFormed(d.newState);
    var pl :- Placement(node, at, Parse(d.oldState), Parse(d.newState));
    var s :- NamePath(pl.1, pl.2);
    var g :- NamePath(pl.1, pl.3);
    Ok(Stored(pl.0, pl.2, pl.3, Transition(pl.0 + s, pl.0 + g, d.trigger, d.onTransfer, d.condition, d.info)))
  }

  /** A created transition joins the states the declared names find from
      the declaring state, both of which exist; it is owned at or below the
      declaring state. A name that finds no state gives no transition. */
  lemma CreatedFinds(tree: NamedTree, at: Path, d: Decl)
    requires Created(tree, at, d).Ok?
    ensures var e := Created(tree, at, d).value;
            Endpoints(tree, e.transition) && at <= e.at &&
            StateAt(tree, e.transition.state) == StateAt(tree, at + Parse(d.oldState)) &&
            StateAt(tree, e.transition.target) == StateAt(tree, at + Parse(d.newState)) &&
            e.transition.trigger == d.trigger && e.transition.condition == d.condition &&
            e.transition.onTransfer == d.onTransfer
  {
    var node := StateAt(tree, at).value;
    var o, n := Parse(d.oldState), Parse(d.newState);
    ParseWellFormed(d.oldState);
    ParseWellFormed(d.newState);
    var pl := Placement(node, at, o, n).value;
    PlacementFinds(tree, at, node, o, n);
    StateAtBounds(tree, pl.0);
    NamePathFinds(pl.1, pl.2);
    NamePathFinds(pl.1, pl.3);
    StateAtConcat(tree, pl.0, NamePath(pl.1, pl.2).value);
    StateAtConcat(tree, pl.0, NamePath(pl.1, pl.3).value);
    StateAtConcat(tree, at, o);
    StateAtConcat(tree, at, n);
  }

  /** A name that finds no state from the declaring state gives no
      transition. */
  lemma MissingStateRefused(tree: NamedTree, at: Path, d: Decl)
    requires StateAt(tree, at + Parse(d.oldState)).Err? || StateAt(tree, at + Parse(d.newState)).Err?
    ensures Created(tree, at, d).Err?
  {
    if Created(tree, at, d).Ok? {
      CreatedFinds(tree, at, d);
    }
  }

  /* ---------- the dictionaries of a state ---------- */

  /** The key of `triggering`: the owner, the old tail and the trigger. */
  function TriggerKeyOf(e: Stored): (Path, Path, string)
  {
    (e.at, e.oldTail, e.transition.trigger)
  }

  /** The key of `trans_dict`: the owner, the old tail and the new tail. */
  function PairKeyOf(e: Stored): (Path, Path, Path)
  {
    (e.at, e.oldTail, e.newTail)
  }

  /** `d[k].append(i)` on a `defaultdict(list)`. */
  function Push<K>(d: map<K, seq<nat>>, k: K, i: nat): map<K, seq<nat>>
  {
    d[k := (if k in d then d[k] else []) + [i]]
  }

  /** A dictionary as `create_transition` fills it: the positions of the
      transitions, in creation order, under their keys. */
  function Filed<K>(es: seq<Stored>, key: Stored -> K): map<K, seq<nat>>
  {
    if |es| == 0 then map[]
    else Push(Filed(es[..|es| - 1], key), key(es[|es| - 1]), |es| - 1)
  }

  /** Every transition is filed, under its own key. */
  lemma {:induction false} FiledCovers<K>(es: seq<Stored>, key: Stored -> K)
    ensures forall i :: 0 <= i < |es| ==> key(es[i]) in Filed(es, key) && i in Filed(es, key)[key(es[i])]
  {
    if |es| > 0 {
      var init := es[..|es| - 1];
      FiledCovers(init, key);
      assert forall i :: 0 <= i < |init| ==> init[i] == es[i];
    }
  }

  /** Every list of `g` is non-empty and holds, in increasing order,
      positions of transitions of `es` with its key. */
  predicate ListsOf<K>(es: seq<Stored>, g: map<K, seq<nat>>, key: Stored -> K)
  {
    forall k :: k in g ==>
      |g[k]| > 0 &&
      (forall j :: 0 <= j < |g[k]| ==> g[k][j] < |es| && key(es[g[k][j]]) == k) &&
      (forall j, j' :: 0 <= j < j' < |g[k]| ==> g[k][j] < g[k][j'])
  }

  /** Every list is non-empty and holds, in creation order, positions of
      transitions with its key. */
  lemma {:induction false} FiledMembers<K>(es: seq<Stored>, key: Stored -> K)
    ensures ListsOf(es, Filed(es, key), key)
  {
    if |es| > 0 {
      var n := |es| - 1;
      var init := es[..n];
      FiledMembers(init, key);
      var g0 := Filed(init, key);
      var g := Filed(es, key);
      assert ListsOf(init, g0, key);
      assert g == Push(g0, key(es[n]), n);
      forall k | k in g
        ensures |g[k]| > 0
        ensures forall j :: 0 <= j < |g[k]| ==> g[k][j] < |es| && key(es[g[k][j]]) == k
        ensures forall j, j' :: 0 <= j < j' < |g[k]| ==> g[k][j] < g[k][j']
      {
        if k == key(es[n]) {
          var l := if k in g0 then g0[k] else [];
          assert g[k] == l + [n];
          assert forall j :: 0 <= j < |l| ==> l[j] < n && es[l[j]] == init[l[j]];
        } else {
          assert g[k] == g0[k];
          assert forall j :: 0 <= j < |g0[k]| ==> es[g0[k][j]] == init[g0[k][j]];
        }
      }
    }
  }

  /** Only the keys matter: changing a transition without changing its key
      leaves the dictionary as it is. */
  lemma {:induction false} FiledKeysOnly<K>(es: seq<Stored>, fs: seq<Stored>, key: Stored -> K)
    requires |es| == |fs| && forall i :: 0 <= i < |es| ==> key(es[i]) == key(fs[i])
    ensures Filed(es, key) == Filed(fs, key)
  {
    if |es| > 0 {
      FiledKeysOnly(es[..|es| - 1], fs[..|fs| - 1], key);
    }
  }

  /** Appending a transition appends its position under its key. */
  lemma FiledAppend<K>(es: seq<Stored>, e: Stored, key: Stored -> K)
    ensures Filed(es + [e], key) == Push(Filed(es, key), key(e), |es|)
  {
    assert (es + [e])[..|es|] == es;
  }

  /** The last position filed under a key is that of a transition with
      the key. */
  lemma FiledLast<K>(es: seq<Stored>, key: Stored -> K, k: K)
    requires k in Filed(es, key)
    ensures var l := Filed(es, key)[k];
            |l| > 0 && l[|l| - 1] < |es| && key(es[l[|l| - 1]]) == k
  {
    FiledMembers(es, key);
  }

  /** Every position filed under a key is that of a transition with the
      key. */
  lemma FiledGroup<K>(es: seq<Stored>, key: Stored -> K, k: K)
    requires k in Filed(es, key)
    ensures var l := Filed(es, key)[k];
            |l| > 0 && forall i :: 0 <= i < |l| ==> l[i] < |es| && key(es[l[i]]) == k
  {
    FiledMembers(es, key);
  }

  /** Every transition is filed under its key. */
  lemma FiledIn<K>(es: seq<Stored>, key: Stored -> K, x: nat)
    requires x < |es|
    ensures key(es[x]) in Filed(es, key) && x in Filed(es, key)[key(es[x])]
  {
    FiledCovers(es, key);
  }

  /** The key of every transition is filed with at least one position. */
  lemma FiledHas<K>(es: seq<Stored>, key: Stored -> K, x: nat)
    requires x < |es|
    ensures key(es[x]) in Filed(es, key) && |Filed(es, key)[key(es[x])]| > 0
  {
    FiledCovers(es, key);
  }

  /* ---------- the order states are built in ---------- */

  /** The paths of the states in the order their constructors finish:
      `_init_states` builds every sub-state, with all of its own sub-states,
      before `_init_transitions` runs for the state itself. */
  function PostOrder(t: StateNode): (r: seq<Path>)
    ensures |r| > 0 && r[|r| - 1] == []
    decreases t, 1
  {
    SubPostOrder(t, |t.subs|) + [[]]
  }

  function SubPostOrder(t: StateNode, n: nat): (r: seq<Path>)
    requires n <= |t.subs|
    ensures forall i :: 0 <= i < |r| ==> |r[i]| > 0
    decreases t, 0, n
  {
    if n == 0 then []
    else
      var below := PostOrder(t.subs[n - 1]);
      var init := SubPostOrder(t, n - 1);
      init + Normalize.Prefixed([Key(t.subs[n - 1].name)], below)
  }

  /** Every path of the sequence names a state of `t`. */
  predicate NamesStates(t: StateNode, ps: seq<Path>)
  {
    forall i :: 0 <= i < |ps| ==> StateAt(t, ps[i]).Ok?
  }

  /** No path of the sequence is a proper prefix of an earlier one: a
      state comes after every state below it. */
  predicate ChildrenFirst(r: seq<Path>)
  {
    forall i, j :: 0 <= i < |r| && 0 <= j < |r| && r[j] < r[i] ==> i < j
  }

  /** Every path names a state, and a state comes after all the states
      below it. */
  lemma PostOrderLaws(t: StateNode)
    requires WellNamed(t)
    ensures NamesStates(t, PostOrder(t))
    ensures ChildrenFirst(PostOrder(t))
  {
    PostOrderFound(t);
    PostOrderOrder(t);
  }

  lemma {:induction false} PostOrderFound(t: StateNode)
    requires WellNamed(t)
    ensures NamesStates(t, PostOrder(t))
    decreases t, 1
  {
    SubPostOrderFound(t, |t.subs|);
  }

  lemma {:induction false} PostOrderOrder(t: StateNode)
    requires WellNamed(t)
    ensures ChildrenFirst(PostOrder(t))
    decreases t, 1
  {
    SubPostOrderOrder(t, |t.subs|);
    RootLast(SubPostOrder(t, |t.subs|));
  }

  /** The root after paths that are not empty keeps the order. */
  lemma RootLast(s: seq<Path>)
    requires ChildrenFirst(s) && forall i :: 0 <= i < |s| ==> |s[i]| > 0
    ensures ChildrenFirst(s + [[]])
  {
    var r := s + [[]];
    forall i, j | 0 <= i < |r| && 0 <= j < |r| && r[j] < r[i]
      ensures i < j
    {
      if j < |s| {
        assert |r[j]| > 0;
      }
    }
  }

  lemma {:induction false} SubPostOrderFound(t: StateNode, n: nat)
    requires WellNamed(t) && n <= |t.subs|
    ensures NamesStates(t, SubPostOrder(t, n))
    decreases t, 0, n
  {
    if n > 0 {
      assert NamesStates(t, SubPostOrder(t, n - 1)) by {
        SubPostOrderFound(t, n - 1);
      }
      assert NamesStates(t.subs[n - 1], PostOrder(t.subs[n - 1])) by {
        PostOrderFound(t.subs[n - 1]);
      }
      StepFound(t, n - 1, n);
    }
  }

  lemma {:induction false} SubPostOrderOrder(t: StateNode, n: nat)
    requires WellNamed(t) && n <= |t.subs|
    ensures ChildrenFirst(SubPostOrder(t, n))
    decreases t, 0, n
  {
    if n > 0 {
      assert ChildrenFirst(SubPostOrder(t, n - 1)) by {
        SubPostOrderOrder(t, n - 1);
      }
      assert ChildrenFirst(PostOrder(t.subs[n - 1])) by {
        PostOrderOrder(t.subs[n - 1]);
      }
      StepOrder(t, n - 1, n);
    }
  }

  lemma StepFound(t: StateNode, m: nat, n: nat)
    requires WellNamed(t) && m < |t.subs| && n == m + 1
    requires NamesStates(t, SubPostOrder(t, m)) && NamesStates(t.subs[m], PostOrder(t.subs[m]))
    ensures NamesStates(t, SubPostOrder(t, n))
  {
    var moved := Normalize.Prefixed([Key(t.subs[m].name)], PostOrder(t.subs[m]));
    assert SubPostOrder(t, n) == SubPostOrder(t, m) + moved;
    MovedFound(t, m, PostOrder(t.subs[m]));
    AllFound(t, SubPostOrder(t, m), moved);
  }

  lemma StepOrder(t: StateNode, m: nat, n: nat)
    requires WellNamed(t) && m < |t.subs| && n == m + 1
    requires ChildrenFirst(SubPostOrder(t, m)) && ChildrenFirst(PostOrder(t.subs[m]))
    ensures ChildrenFirst(SubPostOrder(t, n))
  {
    var k := Key(t.subs[m].name);
    var moved := Normalize.Prefixed([k], PostOrder(t.subs[m]));
    assert SubPostOrder(t, n) == SubPostOrder(t, m) + moved;
    PrefixedOrder(k, PostOrder(t.subs[m]));
    InitDiffers(t, m, m);
    AppendOrder(SubPostOrder(t, m), moved, k);
  }

  /** The paths below a sub-state, after its name, name states of the
      parent. */
  lemma MovedFound(t: StateNode, m: nat, below: seq<Path>)
    requires WellNamed(t) && m < |t.subs|
    requires forall i :: 0 <= i < |below| ==> StateAt(t.subs[m], below[i]).Ok?
    ensures forall i :: 0 <= i < |below| ==>
              StateAt(t, Normalize.Prefixed([Key(t.subs[m].name)], below)[i]).Ok?
  {
    var k := Key(t.subs[m].name);
    ChildByName(t, m);
    forall i | 0 <= i < |below|
      ensures StateAt(t, [k] + below[i]).Ok?
    {
      StateAtConcat(t, [k], below[i]);
    }
  }

  /** The paths of the first sub-states do not start with the name of a
      later one. */
  lemma {:induction false} InitDiffers(t: StateNode, n: nat, m: nat)
    requires WellNamed(t) && n <= m < |t.subs|
    ensures forall i :: 0 <= i < |SubPostOrder(t, n)| ==> SubPostOrder(t, n)[i][0] != Key(t.subs[m].name)
  {
    if n > 0 {
      var init := SubPostOrder(t, n - 1);
      var moved := Normalize.Prefixed([Key(t.subs[n - 1].name)], PostOrder(t.subs[n - 1]));
      assert SubPostOrder(t, n) == init + moved;
      InitDiffers(t, n - 1, m);
      assert t.subs[n - 1].name != t.subs[m].name;
      forall i | 0 <= i < |moved|
        ensures moved[i][0] == Key(t.subs[n - 1].name)
      {
      }
    }
  }

  lemma AllFound(t: StateNode, a: seq<Path>, b: seq<Path>)
    requires forall i :: 0 <= i < |a| ==> StateAt(t, a[i]).Ok?
    requires forall i :: 0 <= i < |b| ==> StateAt(t, b[i]).Ok?
    ensures forall i :: 0 <= i < |a + b| ==> StateAt(t, (a + b)[i]).Ok?
  {
  }

  /** Putting the same segment in front keeps the order. */
  lemma PrefixedOrder(k: Seg, below: seq<Path>)
    requires ChildrenFirst(below)
    ensures ChildrenFirst(Normalize.Prefixed([k], below))
    ensures forall i :: 0 <= i < |below| ==> Normalize.Prefixed([k], below)[i][0] == k
  {
    var moved := Normalize.Prefixed([k], below);
    forall i, j | 0 <= i < |moved| && 0 <= j < |moved| && moved[j] < moved[i]
      ensures i < j
    {
      assert moved[i] == [k] + below[i] && moved[j] == [k] + below[j];
      assert below[j] == moved[j][1..] && below[i][..|below[j]|] == moved[i][1..|moved[j]|];
    }
  }

  /** Paths that start differently are never prefixes of one another, so
      two ordered sequences of them, one after the other, stay ordered. */
  lemma AppendOrder(a: seq<Path>, b: seq<Path>, k: Seg)
    requires ChildrenFirst(a) && ChildrenFirst(b)
    requires forall i :: 0 <= i < |a| ==> |a[i]| > 0 && a[i][0] != k
    requires forall i :: 0 <= i < |b| ==> |b[i]| > 0 && b[i][0] == k
    ensures ChildrenFirst(a + b)
  {
    var r := a + b;
    forall i, j | 0 <= i < |r| && 0 <= j < |r| && r[j] < r[i]
      ensures i < j
    {
      if i >= |a| && j >= |a| {
        assert r[i] == b[i - |a|] && r[j] == b[j - |a|];
      }
    }
  }

  /* ---------- the machine ---------- */

  /** The transitions declared in the configuration of each state, by the
      state's path; a state without any is absent. */
  type Declared = map<Path, seq<Decl>>

  /** The declarations in the order the constructors create them: state by
      state in PostOrder, each state's in its declared order. */
  function Declarations(ps: seq<Path>, decl: Declared): (r: seq<(Path, Decl)>)
  {
    if |ps| == 0 then []
    else
      var p := ps[|ps| - 1];
      var ds := if p in decl then decl[p] else [];
      Declarations(ps[..|ps| - 1], decl) + seq(|ds|, j requires 0 <= j < |ds| => (p, ds[j]))
  }

  /** The transitions of a sequence of declarations, created in order,
      or the first error. */
  function CreatedAll(tree: NamedTree, ds: seq<(Path, Decl)>): Result<seq<Stored>>
  {
    if |ds| == 0 then Ok([])
    else
      var init :- CreatedAll(tree, ds[..|ds| - 1]);
      var e :- Created(tree, ds[|ds| - 1].0, ds[|ds| - 1].1);
      Ok(init + [e])
  }

  /** One more declaration: its transition is appended, or its error
      ends the construction. */
  lemma CreatedAllStep(tree: NamedTree, ds: seq<(Path, Decl)>, i: nat, made: seq<Stored>)
    requires i < |ds| && CreatedAll(tree, ds[..i]) == Ok(made)
    ensures var c := Created(tree, ds[i].0, ds[i].1);
            (c.Ok? ==> CreatedAll(tree, ds[..i + 1]) == Ok(made + [c.value])) &&
            (c.Err? ==> CreatedAll(tree, ds) == Err(c.error))
  {
    assert ds[..i + 1][..i] == ds[..i];
    if Created(tree, ds[i].0, ds[i].1).Err? {
      CreatedAllFailEarly(tree, ds, i + 1);
    }
  }

  /** An error on a prefix is the error of the whole. */
  lemma {:induction false} CreatedAllFailEarly(tree: NamedTree, ds: seq<(Path, Decl)>, k: nat)
    requires k <= |ds| && CreatedAll(tree, ds[..k]).Err?
    ensures CreatedAll(tree, ds) == CreatedAll(tree, ds[..k])
    decreases |ds|
  {
    if k < |ds| {
      var init := ds[..|ds| - 1];
      assert init[..k] == ds[..k];
      CreatedAllFailEarly(tree, init, k);
    } else {
      assert ds[..k] == ds;
    }
  }

  /** The transitions of the whole configuration, or the first error. */
  function AllCreated(tree: NamedTree, decl: Declared): Result<seq<Stored>>
  {
    CreatedAll(tree, Declarations(PostOrder(tree), decl))
  }

  type TriggerKey = (Path, Path, string)
  type PairKey = (Path, Path, Path)

  /** A transition group: the transitions at the given positions. */
  function GroupOf(es: seq<Stored>, ids: seq<nat>): (r: seq<Transition>)
    requires forall i :: 0 <= i < |ids| ==> ids[i] < |es|
    ensures |r| == |ids| && forall i :: 0 <= i < |ids| ==> r[i] == es[ids[i]].transition
  {
    seq(|ids|, i requires 0 <= i < |ids| => es[ids[i]].transition)
  }

  /** What `_verify_transitions` demands of each group: the last transition
      has no condition and every earlier one has one. */
  predicate GroupOK(ts: seq<Transition>)
  {
    |ts| > 0 && |ts[|ts| - 1].condition| == 0 &&
    forall i :: 0 <= i < |ts| - 1 ==> |ts[i].condition| > 0
  }

  /* ---------- looking transitions up by state names ---------- */

  /** The spliced paths of one old name with each new name, in order. */
  function SplicedRow(tree: NamedTree, oldName: string, news: seq<string>): Result<seq<(Path, Path, Path)>>
  {
    if |news| == 0 then Ok([])
    else
      var init :- SplicedRow(tree, oldName, news[..|news| - 1]);
      var last :- Normalize.SplicedPaths(oldName, news[|news| - 1], Normalize.StateGetter(tree), [], true);
      Ok(init + last)
  }

  /** The spliced paths of every pair of names, the old names outermost. */
  function SplicedAll(tree: NamedTree, olds: seq<string>, news: seq<string>): Result<seq<(Path, Path, Path)>>
  {
    if |olds| == 0 then Ok([])
    else
      var init :- SplicedAll(tree, olds[..|olds| - 1], news);
      var row :- SplicedRow(tree, olds[|olds| - 1], news);
      Ok(init + row)
  }

  /** The positions filed under each key, key after key. */
  function Collected(td: map<PairKey, seq<nat>>, keys: seq<PairKey>): seq<nat>
  {
    if |keys| == 0 then []
    else Collected(td, keys[..|keys| - 1]) + (if keys[|keys| - 1] in td then td[keys[|keys| - 1]] else [])
  }

  /** A position is collected exactly when it is filed under one of the
      keys. */
  lemma {:induction false} CollectedIn(td: map<PairKey, seq<nat>>, keys: seq<PairKey>)
    ensures forall x :: x in Collected(td, keys) <==> exists j :: 0 <= j < |keys| && keys[j] in td && x in td[keys[j]]
  {
    if |keys| > 0 {
      var n := |keys| - 1;
      var init := keys[..n];
      CollectedIn(td, init);
      var last := if keys[n] in td then td[keys[n]] else [];
      assert Collected(td, keys) == Collected(td, init) + last;
      forall x
        ensures x in Collected(td, keys) <==> exists j :: 0 <= j < |keys| && keys[j] in td && x in td[keys[j]]
      {
        if x in Collected(td, init) {
          var j :| 0 <= j < |init| && init[j] in td && x in td[init[j]];
          assert keys[j] == init[j];
        }
        if exists j :: 0 <= j < |keys| && keys[j] in td && x in td[keys[j]] {
          var j :| 0 <= j < |keys| && keys[j] in td && x in td[keys[j]];
          if j < n {
            assert init[j] == keys[j];
          }
        }
      }
    }
  }

  /** With the dictionary creation fills, the positions collected are
      exactly those of the transitions whose pair key is one of the keys. */
  lemma CollectedFiled(es: seq<Stored>, keys: seq<PairKey>)
    ensures var ids := Collected(Filed(es, PairKeyOf), keys);
            (forall x :: x in ids ==> x < |es|) &&
            forall i :: 0 <= i < |es| ==> (i in ids <==> PairKeyOf(es[i]) in keys)
  {
    var td := Filed(es, PairKeyOf);
    var ids := Collected(td, keys);
    CollectedIn(td, keys);
    FiledCovers(es, PairKeyOf);
    FiledMembers(es, PairKeyOf);
    assert ListsOf(es, td, PairKeyOf);
    forall x | x in ids
      ensures x < |es| && PairKeyOf(es[x]) in keys
    {
      var j :| 0 <= j < |keys| && keys[j] in td && x in td[keys[j]];
      var m :| 0 <= m < |td[keys[j]]| && td[keys[j]][m] == x;
    }
    forall i | 0 <= i < |es| && PairKeyOf(es[i]) in keys
      ensures i in ids
    {
      var j :| 0 <= j < |keys| && keys[j] == PairKeyOf(es[i]);
      assert keys[j] in td && i in td[keys[j]];
    }
  }

  /** `_lookup_transitions` on values: the transitions between every old
      and every new name; MachineError when some are asked for and there
      are none. */
  function Looked(tree: NamedTree, td: map<PairKey, seq<nat>>, olds: seq<string>, news: seq<string>, check: bool): Result<seq<nat>>
  {
    var keys :- SplicedAll(tree, olds, news);
    var ids := Collected(td, keys);
    if check && |ids| == 0 then Err(MachineError) else Ok(ids)
  }

  /** The lookup finds a transition exactly when its owner and tails are
      one of the splices of the names; it fails only on a name that does
      not expand, or when some are asked for and none matches. */
  lemma LookedFinds(tree: NamedTree, es: seq<Stored>, olds: seq<string>, news: seq<string>, check: bool)
    ensures var r := Looked(tree, Filed(es, PairKeyOf), olds, news, check);
            var keys := SplicedAll(tree, olds, news);
            (r.Ok? ==> keys.Ok? && (check ==> |r.value| > 0) && (forall x :: x in r.value ==> x < |es|) &&
                       forall i :: 0 <= i < |es| ==> (i in r.value <==> PairKeyOf(es[i]) in keys.value)) &&
            (r.Err? ==> keys == Err(r.error) ||
                        (keys.Ok? && check && r.error == MachineError &&
                         forall i :: 0 <= i < |es| ==> PairKeyOf(es[i]) !in keys.value))
  {
    var keys := SplicedAll(tree, olds, news);
    if keys.Ok? {
      CollectedFiled(es, keys.value);
    }
  }

  /** `__getitem__` with a pair of names: the transitions between the
      leaves below the two states; KeyError when there are none. */
  function ItemTransitions(tree: NamedTree, td: map<PairKey, seq<nat>>, oldName: string, newName: string): Result<seq<nat>>
  {
    var olds :- Normalize.Extended([Parse(oldName)], Normalize.StateGetter(tree), []);
    var news :- Normalize.Extended([Parse(newName)], Normalize.StateGetter(tree), []);
    var keys :- Normalize.SplicedPairs(olds, Ok(news));
    var ids := Collected(td, keys);
    if |ids| == 0 then Err(KeyError) else Ok(ids)
  }

  /** The transitions `__getitem__` gives are never none, and are exactly
      those whose owner and tails splice a leaf below the old state with a
      leaf below the new one. */
  lemma ItemTransitionsFind(tree: NamedTree, es: seq<Stored>, oldName: string, newName: string)
    requires ItemTransitions(tree, Filed(es, PairKeyOf), oldName, newName).Ok?
    ensures var ids := ItemTransitions(tree, Filed(es, PairKeyOf), oldName, newName).value;
            var olds := Normalize.Extended([Parse(oldName)], Normalize.StateGetter(tree), []).value;
            var news := Normalize.Extended([Parse(newName)], Normalize.StateGetter(tree), []).value;
            var keys := Normalize.SplicedPairs(olds, Ok(news)).value;
            |ids| > 0 && (forall x :: x in ids ==> x < |es|) &&
            forall i :: 0 <= i < |es| ==> (i in ids <==> PairKeyOf(es[i]) in keys)
  {
    var olds := Normalize.Extended([Parse(oldName)], Normalize.StateGetter(tree), []).value;
    var news := Normalize.Extended([Parse(newName)], Normalize.StateGetter(tree), []).value;
    CollectedFiled(es, Normalize.SplicedPairs(olds, Ok(news)).value);
  }

  /* ---------- registering transition callbacks ---------- */

  /** `n` copies of a callback. */
  function Copies(cb: Callback, n: nat): (r: seq<Callback>)
    ensures |r| == n && forall i :: 0 <= i < n ==> r[i] == cb
  {
    seq(n, _ => cb)
  }

  /** The callback appended to the `on_transfer` list of the transition at
      each position, in order. */
  function WithTransfer(es: seq<Stored>, ids: seq<nat>, cb: Callback): (r: seq<Stored>)
    ensures |r| == |es|
  {
    if |ids| == 0 then es
    else
      var r0 := WithTransfer(es, ids[..|ids| - 1], cb);
      var x := ids[|ids| - 1];
      if x < |r0| then
        r0[x := r0[x].(transition := r0[x].transition.(onTransfer := r0[x].transition.onTransfer + [cb]))]
      else r0
  }

  /** Each transition gets the callback once for every time its position
      is listed, and nothing else about it changes. */
  lemma {:induction false} WithTransferLaws(es: seq<Stored>, ids: seq<nat>, cb: Callback)
    requires forall j :: 0 <= j < |ids| ==> ids[j] < |es|
    ensures var r := WithTransfer(es, ids, cb);
            forall i :: 0 <= i < |es| ==> TransferredAt(es, r, cb, i, multiset(ids)[i])
  {
    if |ids| > 0 {
      var n := |ids| - 1;
      var r0 := WithTransfer(es, ids[..n], cb);
      WithTransferLaws(es, ids[..n], cb);
      var r := WithTransfer(es, ids, cb);
      forall i | 0 <= i < |es|
        ensures TransferredAt(es, r, cb, i, multiset(ids)[i])
      {
        CountLast(ids, i);
        TransferStep(es, r0, r, ids[n], cb, i, multiset(ids[..n])[i]);
      }
    }
  }

  /** Listing one more position counts once more for it alone. */
  lemma CountLast(ids: seq<nat>, i: nat)
    requires |ids| > 0
    ensures multiset(ids)[i] == multiset(ids[..|ids| - 1])[i] + if i == ids[|ids| - 1] then 1 else 0
  {
    assert ids == ids[..|ids| - 1] + [ids[|ids| - 1]];
  }

  /** Position `i` of `r` is that of `es` with `m` more copies of the
      callback at the end of its `on_transfer` list. */
  predicate TransferredAt(es: seq<Stored>, r: seq<Stored>, cb: Callback, i: nat, m: nat)
    requires i < |es| && i < |r|
  {
    r[i].transition.onTransfer == es[i].transition.onTransfer + Copies(cb, m) &&
    r[i] == es[i].(transition := es[i].transition.(onTransfer := r[i].transition.onTransfer))
  }

  /** One more append at position `x` adds one copy there and none elsewhere. */
  lemma TransferStep(es: seq<Stored>, r0: seq<Stored>, r: seq<Stored>, x: nat, cb: Callback, i: nat, m: nat)
    requires |r0| == |es| && x < |r0| && i < |es|
    requires r == r0[x := r0[x].(transition := r0[x].transition.(onTransfer := r0[x].transition.onTransfer + [cb]))]
    requires TransferredAt(es, r0, cb, i, m)
    ensures TransferredAt(es, r, cb, i, if i == x then m + 1 else m)
  {
    if i == x {
      assert Copies(cb, m + 1) == Copies(cb, m) + [cb];
    }
  }

  /** The keys, the ends and the identity of a transition. */
  predicate SameKeys(e: Stored, f: Stored)
  {
    e.at == f.at && e.oldTail == f.oldTail && e.newTail == f.newTail &&
    e.transition.state == f.transition.state && e.transition.target == f.transition.target &&
    e.transition.trigger == f.transition.trigger
  }

  /** The callback appended to the `condition` list of one transition. */
  function WithCondition(es: seq<Stored>, id: nat, cb: Callback): (r: seq<Stored>)
    requires id < |es|
    ensures |r| == |es| && r[id].transition.condition == es[id].transition.condition + [cb]
    ensures forall i :: 0 <= i < |es| ==> SameKeys(es[i], r[i]) && (i != id ==> r[i] == es[i])
  {
    es[id := es[id].(transition := es[id].transition.(condition := es[id].transition.condition + [cb]))]
  }

  /** The same-state transition `add_condition` creates as the default of a
      group. */
  function Defaulted(e: Stored): (d: Stored)
    ensures TriggerKeyOf(d) == TriggerKeyOf(e) && d.transition.state == d.transition.target == e.transition.state
    ensures d.transition.condition == []
  {
    Stored(e.at, e.oldTail, e.oldTail,
           Transition(e.transition.state, e.transition.state, e.transition.trigger, [], [],
                      "auto-generated default transition in case conditions fails"))
  }

  /** The last transition of the group under `k` has no condition. */
  ghost predicate GroupEndsOpen(es: seq<Stored>, k: TriggerKey)
  {
    EndsOpenIn(es, Filed(es, TriggerKeyOf), k)
  }

  /** The last position filed under `k` in `g` is that of a transition
      without a condition. */
  predicate EndsOpenIn(es: seq<Stored>, g: map<TriggerKey, seq<nat>>, k: TriggerKey)
  {
    k in g && |g[k]| > 0 && g[k][|g[k]| - 1] < |es| && |es[g[k][|g[k]| - 1]].transition.condition| == 0
  }

  /** The group filed under `k` has a same-state transition. */
  ghost predicate SameStateIn(es: seq<Stored>, k: TriggerKey)
  {
    exists i :: 0 <= i < |es| && TriggerKeyOf(es[i]) == k && es[i].transition.state == es[i].transition.target
  }

  /** `add_condition` as evidently intended, on values: the condition is
      registered; if the group of the transition no longer ends open, a
      same-state default is appended to the group, unless the group already
      has a same-state transition, which is a MachineError. */
  ghost function ConditionAdded(es: seq<Stored>, id: nat, cb: Callback): (seq<Stored>, Result<()>)
    requires id < |es|
  {
    var es' := WithCondition(es, id, cb);
    var k := TriggerKeyOf(es[id]);
    if EndsOpenIn(es', Filed(es, TriggerKeyOf), k) then (es', Ok(()))
    else if SameStateIn(es', k) then (es', Err(MachineError))
    else (es' + [Defaulted(es[id])], Ok(()))
  }

  /** Registering a condition changes no key, so neither dictionary
      changes and every other group ends as it did. */
  lemma WithConditionKeeps(es: seq<Stored>, id: nat, cb: Callback)
    requires id < |es|
    ensures var es' := WithCondition(es, id, cb);
            Filed(es', TriggerKeyOf) == Filed(es, TriggerKeyOf) && Filed(es', PairKeyOf) == Filed(es, PairKeyOf) &&
            forall k :: k != TriggerKeyOf(es[id]) ==> (GroupEndsOpen(es, k) <==> GroupEndsOpen(es', k))
  {
    var es' := WithCondition(es, id, cb);
    assert forall i :: 0 <= i < |es| ==> TriggerKeyOf(es[i]) == TriggerKeyOf(es'[i]) && PairKeyOf(es[i]) == PairKeyOf(es'[i]);
    FiledKeysOnly(es, es', TriggerKeyOf);
    FiledKeysOnly(es, es', PairKeyOf);
    forall k | k != TriggerKeyOf(es[id])
      ensures GroupEndsOpen(es, k) <==> GroupEndsOpen(es', k)
    {
      OtherGroupKept(es, es', id, k);
    }
  }

  /** A group whose last transition is unchanged ends as it did. */
  lemma OtherGroupKept(es: seq<Stored>, es': seq<Stored>, id: nat, k: TriggerKey)
    requires id < |es| == |es'| && k != TriggerKeyOf(es[id])
    requires Filed(es', TriggerKeyOf) == Filed(es, TriggerKeyOf)
    requires forall i :: 0 <= i < |es| && i != id ==> es'[i] == es[i]
    ensures GroupEndsOpen(es, k) <==> GroupEndsOpen(es', k)
  {
    if k in Filed(es, TriggerKeyOf) {
      FiledLast(es, TriggerKeyOf, k);
    }
  }

  /** Whether the group of a transition ends open is decided by the last
      transition of the group `_verify_transitions` reads. */
  lemma GroupLast(es: seq<Stored>, x: nat)
    requires x < |es|
    ensures var k := TriggerKeyOf(es[x]);
            var g := Filed(es, TriggerKeyOf);
            k in g && |g[k]| > 0 && (forall i :: 0 <= i < |g[k]| ==> g[k][i] < |es|) &&
            (GroupEndsOpen(es, k) <==> |GroupOf(es, g[k])[|g[k]| - 1].condition| == 0)
  {
    FiledHas(es, TriggerKeyOf, x);
    FiledGroup(es, TriggerKeyOf, TriggerKeyOf(es[x]));
  }

  /** The group read from the dictionary has a same-state transition
      exactly when some transition with its key is one. */
  lemma GroupSameState(es: seq<Stored>, x: nat)
    requires x < |es|
    ensures var k := TriggerKeyOf(es[x]);
            var g := Filed(es, TriggerKeyOf);
            k in g && (forall i :: 0 <= i < |g[k]| ==> g[k][i] < |es|) &&
            ((exists j :: 0 <= j < |g[k]| && GroupOf(es, g[k])[j].state == GroupOf(es, g[k])[j].target) <==>
             SameStateIn(es, k))
  {
    var k := TriggerKeyOf(es[x]);
    FiledHas(es, TriggerKeyOf, x);
    FiledGroup(es, TriggerKeyOf, k);
    var g := Filed(es, TriggerKeyOf);
    var ts := GroupOf(es, g[k]);
    if SameStateIn(es, k) {
      var i :| 0 <= i < |es| && TriggerKeyOf(es[i]) == k && es[i].transition.state == es[i].transition.target;
      FiledIn(es, TriggerKeyOf, i);
      var j :| 0 <= j < |g[k]| && g[k][j] == i;
      assert ts[j].state == ts[j].target;
    }
  }

  /** Appending a transition without a condition makes its group end open
      and leaves every other group ending as it did. */
  lemma AppendOpen(es: seq<Stored>, d: Stored)
    requires d.transition.condition == []
    ensures GroupEndsOpen(es + [d], TriggerKeyOf(d))
    ensures forall k :: k != TriggerKeyOf(d) ==> (GroupEndsOpen(es, k) <==> GroupEndsOpen(es + [d], k))
  {
    FiledAppend(es, d, TriggerKeyOf);
    var g := Filed(es, TriggerKeyOf);
    forall k | k != TriggerKeyOf(d)
      ensures GroupEndsOpen(es, k) <==> GroupEndsOpen(es + [d], k)
    {
      if k in g {
        FiledLast(es, TriggerKeyOf, k);
      }
    }
  }

  /** On success `add_condition` leaves the group of the transition ending
      in an unconditioned one, and no group that ended so stops doing so;
      the error comes only from a group whose last transition is
      conditioned. */
  lemma ConditionAddedLaws(es: seq<Stored>, id: nat, cb: Callback)
    requires id < |es|
    ensures var (es2, r) := ConditionAdded(es, id, cb);
            var k := TriggerKeyOf(es[id]);
            (r.Ok? ==> GroupEndsOpen(es2, k) &&
                       forall k' :: GroupEndsOpen(es, k') ==> GroupEndsOpen(es2, k')) &&
            (r.Err? ==> r.error == MachineError && !GroupEndsOpen(es2, k))
  {
    var es' := WithCondition(es, id, cb);
    var k := TriggerKeyOf(es[id]);
    WithConditionKeeps(es, id, cb);
    if !GroupEndsOpen(es', k) && !SameStateIn(es', k) {
      AppendOpen(es', Defaulted(es[id]));
    }
  }

  /** `add_condition` changes no key and no end, and only adds conditions. */
  lemma ConditionAddedKeeps(es: seq<Stored>, id: nat, cb: Callback)
    requires id < |es|
    ensures var es2 := ConditionAdded(es, id, cb).0;
            |es2| >= |es| && cb in es2[id].transition.condition &&
            forall i :: 0 <= i < |es| ==>
              SameKeys(es[i], es2[i]) && es[i].transition.condition <= es2[i].transition.condition
  {
    var es' := WithCondition(es, id, cb);
    var es2 := ConditionAdded(es, id, cb).0;
    assert |es2| >= |es'| && forall i :: 0 <= i < |es'| ==> es2[i] == es'[i] by {
      if es2 != es' {
        assert es2 == es' + [Defaulted(es[id])];
      }
    }
  }

  /** `add_condition` as evidently intended, on the list of transitions and
      the `triggering` dictionary that files it. */
  method AddConditionTo(es: seq<Stored>, triggering: map<TriggerKey, seq<nat>>, id: nat, cb: Callback)
    returns (es2: seq<Stored>, r: Result<()>)
    requires id < |es| && triggering == Filed(es, TriggerKeyOf)
    ensures (es2, r) == ConditionAdded(es, id, cb)
  {
    var k := TriggerKeyOf(es[id]);
    es2 := WithCondition(es, id, cb);
    WithConditionKeeps(es, id, cb);
    assert TriggerKeyOf(es2[id]) == k;
    GroupLast(es2, id);
    GroupSameState(es2, id);
    var ts := GroupOf(es2, triggering[k]);
    if |ts[|ts| - 1].condition| == 0 {
      return es2, Ok(());
    }
    var same := HasSameState(ts);
    if same {
      return es2, Err(MachineError);
    }
    es2 := es2 + [Defaulted(es[id])];
    r := Ok(());
  }

  /** `add_condition` as evidently intended, on the list of transitions and
      both dictionaries that file it. */
  method AddConditionFiled(tree: NamedTree, es: seq<Stored>, triggering: map<TriggerKey, seq<nat>>,
                           transDict: map<PairKey, seq<nat>>, cache: map<(string, string), TriggerKey>,
                           id: nat, cb: Callback)
    returns (es2: seq<Stored>, tr2: map<TriggerKey, seq<nat>>, td2: map<PairKey, seq<nat>>, r: Result<()>)
    requires Consistent(tree, es, triggering, transDict, cache) && id < |es|
    ensures (es2, r) == ConditionAdded(es, id, cb)
    ensures Consistent(tree, es2, tr2, td2, cache)
    ensures forall x :: Filled(triggering, x) <==> Filled(tr2, x)
  {
    es2, r := AddConditionTo(es, triggering, id, cb);
    tr2, td2 := triggering, transDict;
    if |es2| != |es| {
      tr2 := Push(triggering, TriggerKeyOf(es[id]), |es|);
      td2 := Push(transDict, PairKeyOf(Defaulted(es[id])), |es|);
    }
    ConditionAddedConsistent(tree, es, triggering, transDict, cache, id, cb, es2, tr2, td2);
  }

  /** `add_condition` keeps a machine consistent; the default it may add is
      filed in a group that was already filled, so no group becomes filled
      or empty. */
  lemma ConditionAddedConsistent(tree: NamedTree, es: seq<Stored>, triggering: map<TriggerKey, seq<nat>>,
                                 transDict: map<PairKey, seq<nat>>, cache: map<(string, string), TriggerKey>,
                                 id: nat, cb: Callback,
                                 es2: seq<Stored>, tr2: map<TriggerKey, seq<nat>>, td2: map<PairKey, seq<nat>>)
    requires Consistent(tree, es, triggering, transDict, cache) && id < |es|
    requires es2 == ConditionAdded(es, id, cb).0
    requires tr2 == if |es2| == |es| then triggering else Push(triggering, TriggerKeyOf(es[id]), |es|)
    requires td2 == if |es2| == |es| then transDict else Push(transDict, PairKeyOf(Defaulted(es[id])), |es|)
    ensures Consistent(tree, es2, tr2, td2, cache)
    ensures forall x :: Filled(triggering, x) <==> Filled(tr2, x)
  {
    var es' := WithCondition(es, id, cb);
    ConsistentKeysOnly(tree, es, es', triggering, transDict, cache);
    if |es2| != |es| {
      var d := Defaulted(es[id]);
      assert es2 == es' + [d];
      assert Endpoints(tree, es[id].transition);
      ConsistentAppend(tree, es', triggering, transDict, cache, d);
      FiledHas(es, TriggerKeyOf, id);
      PushFilled(triggering, TriggerKeyOf(es[id]), |es|);
    }
  }

  /** `add_condition` on each listed transition in turn, on values; the
      first error stops the registration. */
  method ConditionAll(tree: NamedTree, es: seq<Stored>, triggering: map<TriggerKey, seq<nat>>,
                      transDict: map<PairKey, seq<nat>>, ids: seq<nat>, cb: Callback)
    returns (es2: seq<Stored>, tr2: map<TriggerKey, seq<nat>>, td2: map<PairKey, seq<nat>>, r: Result<()>)
    requires Consistent(tree, es, triggering, transDict, map[])
    requires forall i :: 0 <= i < |ids| ==> ids[i] < |es|
    ensures Consistent(tree, es2, tr2, td2, map[])
    ensures r.Err? ==> r.error == MachineError
    ensures r.Ok? ==> forall i :: 0 <= i < |ids| ==> Registered(es2, ids[i], cb)
  {
    es2, tr2, td2 := es, triggering, transDict;
    for j := 0 to |ids|
      invariant Consistent(tree, es2, tr2, td2, map[])
      invariant forall i :: 0 <= i < |ids| ==> ids[i] < |es2|
      invariant forall i :: 0 <= i < j ==> Registered(es2, ids[i], cb)
    {
      ghost var before := es2;
      var res;
      es2, tr2, td2, res := AddConditionFiled(tree, es2, tr2, td2, map[], ids[j], cb);
      if res.Err? {
        ConditionAddedLaws(before, ids[j], cb);
        return es2, tr2, td2, res;
      }
      ConditionRegisters(before, cb, ids, j);
    }
    r := Ok(());
  }

  /** A registered condition: the transition has it, and its group still
      ends in a transition without one. */
  ghost predicate Registered(es: seq<Stored>, x: nat, cb: Callback)
  {
    x < |es| && cb in es[x].transition.condition && GroupEndsOpen(es, TriggerKeyOf(es[x]))
  }

  /** A successful `add_condition` registers its condition and keeps every
      registration made before it. */
  lemma ConditionRegisters(es: seq<Stored>, cb: Callback, ids: seq<nat>, j: nat)
    requires j < |ids| && ids[j] < |es| && ConditionAdded(es, ids[j], cb).1.Ok?
    requires forall i :: 0 <= i < j ==> Registered(es, ids[i], cb)
    ensures var es2 := ConditionAdded(es, ids[j], cb).0;
            |es2| >= |es| && forall i :: 0 <= i <= j ==> Registered(es2, ids[i], cb)
  {
    ConditionAddedLaws(es, ids[j], cb);
    ConditionAddedKeeps(es, ids[j], cb);
    var es2 := ConditionAdded(es, ids[j], cb).0;
    forall i | 0 <= i < j
      ensures Registered(es2, ids[i], cb)
    {
      assert SameKeys(es[ids[i]], es2[ids[i]]);
    }
  }

  /** For any transition between two different states alone in its group,
      registering a condition as written leaves the group ending in a
      conditioned transition, where the intended behaviour appends the
      default. */
  lemma DefaultMissing(e: Stored, cb: Callback)
    requires e.transition.state != e.transition.target
    ensures !GroupEndsOpen(WithCondition([e], 0, cb), TriggerKeyOf(e))
    ensures ConditionAdded([e], 0, cb).1.Ok? && GroupEndsOpen(ConditionAdded([e], 0, cb).0, TriggerKeyOf(e))
  {
    var es' := WithCondition([e], 0, cb);
    assert Filed(es', TriggerKeyOf) == Push(map[], TriggerKeyOf(e), 0) by {
      assert es'[..0] == [];
    }
    ConditionAddedLaws([e], 0, cb);
  }

  /** `any(t.state is t.target for t in related)`. */
  method HasSameState(ts: seq<Transition>) returns (b: bool)
    ensures b <==> exists i :: 0 <= i < |ts| && ts[i].state == ts[i].target
  {
    for i := 0 to |ts|
      invariant forall l :: 0 <= l < i ==> ts[l].state != ts[l].target
    {
      if ts[i].state == ts[i].target {
        return true;
      }
    }
    return false;
  }

  /** Changing transitions without changing their keys or ends keeps the
      machine consistent. */
  lemma ConsistentKeysOnly(tree: NamedTree, es: seq<Stored>, fs: seq<Stored>, triggering: map<TriggerKey, seq<nat>>,
                           transDict: map<PairKey, seq<nat>>, cache: map<(string, string), TriggerKey>)
    requires Consistent(tree, es, triggering, transDict, cache)
    requires |es| == |fs| && forall i :: 0 <= i < |es| ==> SameKeys(es[i], fs[i])
    ensures Consistent(tree, fs, triggering, transDict, cache)
  {
    assert forall i :: 0 <= i < |es| ==> TriggerKeyOf(es[i]) == TriggerKeyOf(fs[i]) && PairKeyOf(es[i]) == PairKeyOf(fs[i]);
    FiledKeysOnly(es, fs, TriggerKeyOf);
    FiledKeysOnly(es, fs, PairKeyOf);
  }

  /** Filing into a group that is already filled leaves every group filled
      or empty as it was. */
  lemma PushFilled(tr: map<TriggerKey, seq<nat>>, k: TriggerKey, n: nat)
    requires Filled(tr, k)
    ensures forall x :: Filled(tr, x) <==> Filled(Push(tr, k, n), x)
  {
  }

  /** Registering `on_transfer` callbacks changes no key and no end. */
  lemma {:induction false} WithTransferKeys(es: seq<Stored>, ids: seq<nat>, cb: Callback)
    ensures forall i :: 0 <= i < |es| ==> SameKeys(es[i], WithTransfer(es, ids, cb)[i])
  {
    if |ids| > 0 {
      WithTransferKeys(es, ids[..|ids| - 1], cb);
    }
  }

  /** The loop of `on_transfer` over the transitions found. */
  method TransferAll(es: seq<Stored>, ids: seq<nat>, cb: Callback) returns (fs: seq<Stored>)
    ensures fs == WithTransfer(es, ids, cb)
  {
    fs := es;
    for j := 0 to |ids|
      invariant fs == WithTransfer(es, ids[..j], cb)
    {
      assert ids[..j + 1][..j] == ids[..j];
      var x := ids[j];
      if x < |fs| {
        fs := fs[x := fs[x].(transition := fs[x].transition.(onTransfer := fs[x].transition.onTransfer + [cb]))];
      }
    }
    assert ids[..|ids|] == ids;
  }
  /** The nested loops of `_lookup_transitions` over the names. */
  method SplicedKeys(tree: NamedTree, olds: seq<string>, news: seq<string>) returns (r: Result<seq<(Path, Path, Path)>>)
    ensures r == SplicedAll(tree, olds, news)
  {
    var keys: seq<(Path, Path, Path)> := [];
    for i := 0 to |olds|
      invariant SplicedAll(tree, olds[..i], news) == Ok(keys)
    {
      assert olds[..i + 1][..i] == olds[..i];
      var row := SplicedKeysRow(tree, olds[i], news);
      if row.Err? {
        SplicedAllFailEarly(tree, olds, news, i + 1);
        return Err(row.error);
      }
      keys := keys + row.value;
    }
    assert olds[..|olds|] == olds;
    r := Ok(keys);
  }

  /** The inner loop over the new names. */
  method SplicedKeysRow(tree: NamedTree, oldName: string, news: seq<string>) returns (r: Result<seq<(Path, Path, Path)>>)
    ensures r == SplicedRow(tree, oldName, news)
  {
    var row: seq<(Path, Path, Path)> := [];
    for j := 0 to |news|
      invariant SplicedRow(tree, oldName, news[..j]) == Ok(row)
    {
      assert news[..j + 1][..j] == news[..j];
      var sp := Normalize.GetSplicedPaths(oldName, news[j], Normalize.StateGetter(tree), [], true);
      if sp.Err? {
        SplicedRowFailEarly(tree, oldName, news, j + 1);
        return Err(sp.error);
      }
      row := row + sp.value;
    }
    assert news[..|news|] == news;
    r := Ok(row);
  }

  lemma {:induction false} SplicedRowFailEarly(tree: NamedTree, oldName: string, news: seq<string>, k: nat)
    requires k <= |news| && SplicedRow(tree, oldName, news[..k]).Err?
    ensures SplicedRow(tree, oldName, news) == SplicedRow(tree, oldName, news[..k])
  {
    if k < |news| {
      var init := news[..|news| - 1];
      assert init[..k] == news[..k];
      SplicedRowFailEarly(tree, oldName, init, k);
    } else {
      assert news[..k] == news;
    }
  }

  lemma {:induction false} SplicedAllFailEarly(tree: NamedTree, olds: seq<string>, news: seq<string>, k: nat)
    requires k <= |olds| && SplicedAll(tree, olds[..k], news).Err?
    ensures SplicedAll(tree, olds, news) == SplicedAll(tree, olds[..k], news)
  {
    if k < |olds| {
      var init := olds[..|olds| - 1];
      assert init[..k] == olds[..k];
      SplicedAllFailEarly(tree, init, news, k);
    } else {
      assert olds[..k] == olds;
    }
  }

  /** The loop of `_lookup_transitions` over the spliced paths. */
  method CollectIds(td: map<PairKey, seq<nat>>, keys: seq<PairKey>) returns (ids: seq<nat>)
    ensures ids == Collected(td, keys)
  {
    ids := [];
    for i := 0 to |keys|
      invariant ids == Collected(td, keys[..i])
    {
      assert keys[..i + 1][..i] == keys[..i];
      ids := ids + if keys[i] in td then td[keys[i]] else [];
    }
    assert keys[..|keys|] == keys;
  }

  /** `from_config` without transitions: a `goto_<name>` transition from
      every state to every state, itself included, old states outermost. */
  method GotoConfig(names: seq<string>) returns (r: seq<Decl>)
    ensures |r| == |names| * |names|
    ensures forall i, j :: 0 <= i < |names| && 0 <= j < |names| ==>
              Slot(i, j, |names|) < |r| && r[Slot(i, j, |names|)] == Decl(names[i], names[j], "goto_" + names[j], [], [], "")
  {
    var n := |names|;
    r := [];
    for i := 0 to n
      invariant r == GotoRows(names, i)
    {
      for j := 0 to n
        invariant r == GotoRows(names, i) + GotoRow(names, i)[..j]
      {
        assert GotoRow(names, i)[..j + 1] == GotoRow(names, i)[..j] + [Goto(names, i, j)];
        r := r + [Goto(names, i, j)];
      }
      assert GotoRow(names, i)[..n] == GotoRow(names, i);
    }
    GotoTableLen(names);
    GotoTable(names);
  }

  function Goto(names: seq<string>, a: nat, b: nat): Decl
    requires a < |names| && b < |names|
  {
    Decl(names[a], names[b], "goto_" + names[b], [], [], "")
  }

  /** The transitions from the `a`-th state, in the order of the states. */
  function GotoRow(names: seq<string>, a: nat): seq<Decl>
    requires a < |names|
  {
    seq(|names|, b requires 0 <= b < |names| => Goto(names, a, b))
  }

  /** The transitions from the first `m` states. */
  function GotoRows(names: seq<string>, m: nat): seq<Decl>
    requires m <= |names|
  {
    if m == 0 then [] else GotoRows(names, m - 1) + GotoRow(names, m - 1)
  }

  /** The position `a * n + b` of the pair `(a, b)` in a table of `n`
      columns, counted row by row. */
  function Slot(a: nat, b: nat, n: nat): nat
  {
    if a == 0 then b else Slot(a - 1, b, n) + n
  }

  lemma {:induction false} SlotIs(a: nat, b: nat, n: nat)
    ensures Slot(a, b, n) == a * n + b
  {
    if a > 0 {
      SlotIs(a - 1, b, n);
      assert (a - 1) * n + n == a * n;
    }
  }

  lemma {:induction false} SlotShift(a: nat, b: nat, n: nat)
    ensures Slot(a, b, n) == Slot(a, 0, n) + b
  {
    if a > 0 {
      SlotShift(a - 1, b, n);
    }
  }

  lemma {:induction false} SlotBelow(a: nat, b: nat, i: nat, n: nat)
    requires a < i && b < n
    ensures Slot(a, b, n) < Slot(i, 0, n)
  {
    if a < i - 1 {
      SlotBelow(a, b, i - 1, n);
    } else {
      SlotShift(a, b, n);
    }
  }

  lemma {:induction false} GotoRowsLen(names: seq<string>, m: nat)
    requires m <= |names|
    ensures |GotoRows(names, m)| == Slot(m, 0, |names|)
  {
    if m != 0 {
      GotoRowsLen(names, m - 1);
    }
  }

  /** The transition from the `a`-th to the `b`-th state sits at
      `Slot(a, b, |names|)`. */
  lemma {:induction false} GotoRowsEntry(names: seq<string>, m: nat, a: nat, b: nat)
    requires a < m <= |names| && b < |names|
    ensures Slot(a, b, |names|) < |GotoRows(names, m)|
    ensures GotoRows(names, m)[Slot(a, b, |names|)] == Goto(names, a, b)
  {
    GotoRowsLen(names, m);
    GotoRowsLen(names, m - 1);
    SlotBelow(a, b, m, |names|);
    if a < m - 1 {
      GotoRowsEntry(names, m - 1, a, b);
    } else {
      SlotShift(a, b, |names|);
    }
  }

  /** The defaults of `from_config` hold one transition per ordered pair
      of states. */
  lemma GotoTableLen(names: seq<string>)
    ensures |GotoRows(names, |names|)| == |names| * |names|
  {
    GotoRowsLen(names, |names|);
    SlotIs(|names|, 0, |names|);
  }

  /** The defaults of `from_config`, position by position: the
      transition from the `i`-th to the `j`-th state sits at
      `Slot(i, j, |names|)`, which is `i * |names| + j` by `SlotIs`. */
  lemma GotoTable(names: seq<string>)
    ensures forall i, j :: 0 <= i < |names| && 0 <= j < |names| ==>
              Slot(i, j, |names|) < |GotoRows(names, |names|)| &&
              GotoRows(names, |names|)[Slot(i, j, |names|)] == Decl(names[i], names[j], "goto_" + names[j], [], [], "")
  {
    forall i, j | 0 <= i < |names| && 0 <= j < |names|
      ensures Slot(i, j, |names|) < |GotoRows(names, |names|)| &&
              GotoRows(names, |names|)[Slot(i, j, |names|)] == Decl(names[i], names[j], "goto_" + names[j], [], [], "")
    {
      GotoRowsEntry(names, |names|, i, j);
    }
  }

  /* ---------- finding and running the candidates of a trigger ---------- */

  /** A group with at least one transition is filed under the key. */
  predicate Filled<K>(d: map<K, seq<nat>>, k: K)
  {
    k in d && |d[k]| > 0
  }

  /** The key `_get_trigger_transitions` tries at depth `i`: the state
      `trace_in` has reached after the first `i` segments, named by its own
      path (so an index segment stands for the name of the sub-state at that
      position), the rest of the path as given, and the trigger. */
  function LevelKey(tree: NamedTree, p: Path, trigger: string, i: nat): (k: TriggerKey)
    requires i <= |p| && (i == 0 || StateAt(tree, p[..i]).Ok?)
    ensures |k.0| == i && StateAt(tree, k.0) == StateAt(tree, p[..i])
    ensures k.1 == p[i..] && k.2 == trigger
  {
    assert i == 0 ==> p[..i] == [];
    NamePathFinds(tree, p[..i]);
    (NamePath(tree, p[..i]).value, p[i..], trigger)
  }

  /** The search of `_get_trigger_transitions` from depth `i` down: the
      first filled level from the root towards the state, never the state
      itself unless it is the root. Each deeper state is looked up before it
      is visited, and the full path is looked up before the search gives
      up, so a path naming no state fails with the error of that lookup. */
  function Search(tree: NamedTree, tr: map<TriggerKey, seq<nat>>, p: Path, trigger: string, i: nat): Result<TriggerKey>
    requires i == 0 || (i < |p| && StateAt(tree, p[..i]).Ok?)
    decreases |p| - i
  {
    var k := LevelKey(tree, p, trigger, i);
    if Filled(tr, k) then Ok(k)
    else if i == |p| then Err(TransitionError)
    else
      var s :- StateAt(tree, p[..i + 1]);
      if i + 1 == |p| then Err(TransitionError) else Search(tree, tr, p, trigger, i + 1)
  }

  /** A group found is the first filled level at or below depth `i`, never
      the state itself unless it is the root; every level passed names a
      state. */
  lemma {:induction false} SearchFound(tree: NamedTree, tr: map<TriggerKey, seq<nat>>, p: Path, trigger: string, i: nat)
    requires i == 0 || (i < |p| && StateAt(tree, p[..i]).Ok?)
    ensures var r := Search(tree, tr, p, trigger, i);
            r.Ok? ==> i <= |r.value.0| <= |p| && (|r.value.0| == 0 || StateAt(tree, p[..|r.value.0|]).Ok?) &&
                      r.value == LevelKey(tree, p, trigger, |r.value.0|) &&
                      (|r.value.1| > 0 || p == []) && Filled(tr, r.value) &&
                      forall l :: i <= l < |r.value.0| ==>
                        (l == 0 || StateAt(tree, p[..l]).Ok?) && !Filled(tr, LevelKey(tree, p, trigger, l))
    decreases |p| - i
  {
    if !Filled(tr, LevelKey(tree, p, trigger, i)) && i + 1 < |p| {
      if StateAt(tree, p[..i + 1]).Ok? {
        SearchFound(tree, tr, p, trigger, i + 1);
      }
    }
  }

  /** The search fails with the error of looking up a path that names no
      state, or because no level at or below depth `i` has a group. */
  lemma {:induction false} SearchFails(tree: NamedTree, tr: map<TriggerKey, seq<nat>>, p: Path, trigger: string, i: nat)
    requires i == 0 || (i < |p| && StateAt(tree, p[..i]).Ok?)
    ensures var r := Search(tree, tr, p, trigger, i);
            r.Err? ==> StateAt(tree, p) == Err(r.error) ||
                       (r.error == TransitionError &&
                        forall l :: i <= l <= |p| && (l < |p| || l == 0) ==>
                          (l == 0 || StateAt(tree, p[..l]).Ok?) && !Filled(tr, LevelKey(tree, p, trigger, l)))
    decreases |p| - i
  {
    if !Filled(tr, LevelKey(tree, p, trigger, i)) && i < |p| {
      StateAtConcat(tree, p[..i + 1], p[i + 1..]);
      assert p[..i + 1] + p[i + 1..] == p;
      if i + 1 < |p| && StateAt(tree, p[..i + 1]).Ok? {
        SearchFails(tree, tr, p, trigger, i + 1);
      }
    }
  }

  /** On an existing state the search fails only when no level has a
      group for the trigger. */
  lemma SearchOnState(tree: NamedTree, tr: map<TriggerKey, seq<nat>>, p: Path, trigger: string)
    requires StateAt(tree, p).Ok?
    ensures Search(tree, tr, p, trigger, 0).Err? <==>
            forall l :: 0 <= l <= |p| && (l < |p| || l == 0) ==>
              (l == 0 || StateAt(tree, p[..l]).Ok?) && !Filled(tr, LevelKey(tree, p, trigger, l))
  {
    SearchFound(tree, tr, p, trigger, 0);
    SearchFails(tree, tr, p, trigger, 0);
  }

  /** A holder path may give a position instead of a name: the search
      walks the states, so in the tree `a` with sub-states `x` and `y`, a
      group filed in `a` for its sub-state `x` is found from `0.x` just as
      from `a.x`. */
  lemma SearchThroughIndex(trigger: string)
    ensures var tree := StateNode("", [StateNode("a", [StateNode("x", []), StateNode("y", [])])]);
            var k := ([Key("a")], [Key("x")], trigger);
            var tr := map[k := [0]];
            WellNamed(tree) &&
            Search(tree, tr, [Idx(0), Key("x")], trigger, 0) == Ok(k) &&
            Search(tree, tr, [Key("a"), Key("x")], trigger, 0) == Ok(k)
  {
    var x := StateNode("x", []);
    var y := StateNode("y", []);
    var a := StateNode("a", [x, y]);
    var tree := StateNode("", [a]);
    assert CanonicalName("x") && CanonicalName("y") && CanonicalName("a");
    assert WellNamed(x) && WellNamed(y);
    assert WellNamed(a);
    assert WellNamed(tree);
    var k := ([Key("a")], [Key("x")], trigger);
    var tr := map[k := [0]];
    var p := [Idx(0), Key("x")];
    assert Child(tree, Idx(0)) == Ok(a);
    assert p[..1] == [Idx(0)];
    assert StateAt(tree, p[..1]) == Ok(a);
    assert [Idx(0)][1..] == [] && NamePath(a, []) == Ok([]);
    assert [Key("a")] + [] == [Key("a")];
    assert NamePath(tree, [Idx(0)]) == Ok([Key("a")]);
    assert LevelKey(tree, p, trigger, 1) == k;
    assert !Filled(tr, LevelKey(tree, p, trigger, 0));
    var q := [Key("a"), Key("x")];
    assert IndexOf(tree.subs, "a") == Some(0);
    assert Child(tree, Key("a")) == Ok(a);
    assert q[..1] == [Key("a")];
    assert [Key("a")][1..] == [];
    assert NamePath(tree, [Key("a")]) == Ok([Key("a")]);
    assert LevelKey(tree, q, trigger, 1) == k;
    assert !Filled(tr, LevelKey(tree, q, trigger, 0));
  }

  /** The search only asks whether a group is filled, so filing more
      transitions into groups that are already filled changes nothing. */
  lemma {:induction false} SearchSameFilled(tree: NamedTree, tr: map<TriggerKey, seq<nat>>, tr': map<TriggerKey, seq<nat>>,
                                            p: Path, trigger: string, i: nat)
    requires i == 0 || (i < |p| && StateAt(tree, p[..i]).Ok?)
    requires forall k :: Filled(tr, k) <==> Filled(tr', k)
    ensures Search(tree, tr, p, trigger, i) == Search(tree, tr', p, trigger, i)
    decreases |p| - i
  {
    if !Filled(tr, LevelKey(tree, p, trigger, i)) && i + 1 < |p| && StateAt(tree, p[..i + 1]).Ok? {
      SearchSameFilled(tree, tr, tr', p, trigger, i + 1);
    }
  }

  /** The position of the first transition whose condition holds, or the
      number of transitions when none holds. */
  function FirstHolding(ts: seq<Transition>, outcome: Callback -> bool): (j: nat)
    ensures j <= |ts|
    ensures forall i :: 0 <= i < j ==> !CallbackStore.AllHold(ts[i].condition, outcome)
    ensures j < |ts| ==> CallbackStore.AllHold(ts[j].condition, outcome)
  {
    if |ts| == 0 then 0
    else if CallbackStore.AllHold(ts[0].condition, outcome) then 0
    else 1 + FirstHolding(ts[1..], outcome)
  }

  /** The first holding transition is the only position with nothing
      holding before it. */
  lemma {:induction false} FirstHoldingIs(ts: seq<Transition>, outcome: Callback -> bool, j: nat)
    requires j <= |ts| && forall i :: 0 <= i < j ==> !CallbackStore.AllHold(ts[i].condition, outcome)
    requires j < |ts| ==> CallbackStore.AllHold(ts[j].condition, outcome)
    ensures FirstHolding(ts, outcome) == j
  {
    if |ts| > 0 && j > 0 {
      assert !CallbackStore.AllHold(ts[0].condition, outcome);
      forall i | 0 <= i < j - 1
        ensures !CallbackStore.AllHold(ts[1..][i].condition, outcome)
      {
        assert ts[1..][i] == ts[i + 1];
      }
      FirstHoldingIs(ts[1..], outcome, j - 1);
    }
  }

  /** In a group that passed verification some transition always runs:
      the last one has no condition. */
  lemma VerifiedGroupRuns(ts: seq<Transition>, outcome: Callback -> bool)
    requires GroupOK(ts)
    ensures FirstHolding(ts, outcome) < |ts|
    ensures FirstHolding(ts, outcome) == |ts| - 1 <==>
            forall i :: 0 <= i < |ts| - 1 ==> !CallbackStore.AllHold(ts[i].condition, outcome)
  {
    assert CallbackStore.AllHold(ts[|ts| - 1].condition, outcome);
  }

  /** The condition checks of the candidates, in order. */
  function ConditionEvents(ts: seq<Transition>): (r: seq<Event>)
    ensures |r| == |ts| && forall i :: 0 <= i < |ts| ==> r[i] == Condition(ts[i].state, ts[i].target)
  {
    seq(|ts|, i requires 0 <= i < |ts| => Condition(ts[i].state, ts[i].target))
  }

  /** The loop of `trigger` over the candidates: each condition is checked
      in turn until one holds. */
  method CheckConditions(ts: seq<Transition>, h: Holder, outcome: Callback -> bool) returns (j: nat)
    modifies h
    ensures j == FirstHolding(ts, outcome)
    ensures h.trace == old(h.trace) + ConditionEvents(ts[..if j < |ts| then j + 1 else j]) && h.state == old(h.state)
  {
    j := 0;
    while j < |ts|
      invariant 0 <= j <= |ts| && forall l :: 0 <= l < j ==> !CallbackStore.AllHold(ts[l].condition, outcome)
      invariant h.trace == old(h.trace) + ConditionEvents(ts[..j]) && h.state == old(h.state)
    {
      assert ConditionEvents(ts[..j + 1]) == ConditionEvents(ts[..j]) + [Condition(ts[j].state, ts[j].target)];
      h.trace := h.trace + [Condition(ts[j].state, ts[j].target)];
      if CallbackStore.AllHold(ts[j].condition, outcome) {
        FirstHoldingIs(ts, outcome, j);
        return;
      }
      j := j + 1;
    }
    FirstHoldingIs(ts, outcome, j);
  }

  /** The candidates of `trigger`: the first whose condition holds has its
      transition executed; when none holds, no transition runs and the
      error is raised. */
  method RunCandidates(tree: NamedTree, ts: seq<Transition>, h: Holder, outcome: Callback -> bool) returns (r: Result<()>)
    requires forall i :: 0 <= i < |ts| ==> Endpoints(tree, ts[i])
    modifies h
    ensures var j := FirstHolding(ts, outcome);
            if j == |ts| then
              r == Err(TransitionError) && h.trace == old(h.trace) + ConditionEvents(ts) && h.state == old(h.state)
            else
              r == Ok(()) && h.trace == old(h.trace) + ConditionEvents(ts[..j + 1]) + ExecuteEvents(tree, ts[j]) &&
              h.state == if ts[j].state == ts[j].target then old(h.state) else Written(tree, ts[j])
  {
    var j := CheckConditions(ts, h, outcome);
    if j == |ts| {
      assert ts[..j] == ts;
      return Err(TransitionError);
    }
    Execute(tree, ts[j], h);
    r := Ok(());
  }

  /** The events of the body of the `with` block of `trigger`: the
      conditions are checked in order up to the first that holds, that
      transition is executed and the context is left; when none holds the
      block ends with the error and the context is not left. */
  function Fired(tree: NamedTree, ts: seq<Transition>, outcome: Callback -> bool): (es: seq<Event>)
    requires forall i :: 0 <= i < |ts| ==> Endpoints(tree, ts[i])
    ensures |es| > 0 && FirstHolding(ts, outcome) < |ts| ==> es[|es| - 1] == LeaveContext
  {
    var j := FirstHolding(ts, outcome);
    if j == |ts| then ConditionEvents(ts)
    else ConditionEvents(ts[..j + 1]) + ExecuteEvents(tree, ts[j]) + [LeaveContext]
  }

  /** The body of the `with` block of `trigger`. */
  method RunAndLeave(tree: NamedTree, ts: seq<Transition>, h: Holder, outcome: Callback -> bool) returns (r: Result<()>)
    requires forall i :: 0 <= i < |ts| ==> Endpoints(tree, ts[i])
    modifies h
    ensures h.trace == old(h.trace) + Fired(tree, ts, outcome)
    ensures var j := FirstHolding(ts, outcome);
            if j == |ts| then r == Err(TransitionError) && h.state == old(h.state)
            else r == Ok(()) && h.state == if ts[j].state == ts[j].target then old(h.state) else Written(tree, ts[j])
  {
    r := RunCandidates(tree, ts, h, outcome);
    if r.Ok? {
      var j := FirstHolding(ts, outcome);
      ThreeParts(old(h.trace), ConditionEvents(ts[..j + 1]), ExecuteEvents(tree, ts[j]), [LeaveContext]);
      h.trace := h.trace + [LeaveContext];
    }
  }

  lemma Assoc<T>(a: seq<T>, b: seq<T>, c: seq<T>)
    ensures a + b + c == a + (b + c)
  {
  }

  lemma ThreeParts<T>(s: seq<T>, a: seq<T>, b: seq<T>, c: seq<T>)
    ensures s + a + b + c == s + (a + b + c)
  {
  }

  /** The loop of `_get_trigger_transitions` over the levels `trace_in`
      visits. */
  method SearchLevels(tree: NamedTree, tr: map<TriggerKey, seq<nat>>, p: Path, trigger: string) returns (r: Result<TriggerKey>)
    ensures r == Search(tree, tr, p, trigger, 0)
  {
    var i := 0;
    while true
      invariant i == 0 || (i < |p| && StateAt(tree, p[..i]).Ok?)
      invariant Search(tree, tr, p, trigger, 0) == Search(tree, tr, p, trigger, i)
      decreases |p| - i
    {
      assert i == 0 ==> p[..i] == [];
      var at := NamePath(tree, p[..i]);
      var k := (at.value, p[i..], trigger);
      assert k == LevelKey(tree, p, trigger, i);
      if k in tr && |tr[k]| > 0 {
        return Ok(k);
      }
      if i == |p| {
        return Err(TransitionError);
      }
      var s := StateAt(tree, p[..i + 1]);
      if s.Err? {
        return Err(s.error);
      }
      if i + 1 == |p| {
        return Err(TransitionError);
      }
      i := i + 1;
    }
  }

  /** The invariant of a machine, on its values: both ends of every
      transition are states; each dictionary files every transition under
      its key; the cache only names groups that exist. */
  ghost predicate Consistent(tree: NamedTree, stored: seq<Stored>, triggering: map<TriggerKey, seq<nat>>,
                             transDict: map<PairKey, seq<nat>>, cache: map<(string, string), TriggerKey>)
  {
    (forall i :: 0 <= i < |stored| ==> Endpoints(tree, stored[i].transition)) &&
    triggering == Filed(stored, TriggerKeyOf) && transDict == Filed(stored, PairKeyOf) &&
    (forall c :: c in cache ==> cache[c] in triggering)
  }

  /** Filing one more transition whose ends are states keeps the machine
      consistent. */
  lemma ConsistentAppend(tree: NamedTree, stored: seq<Stored>, triggering: map<TriggerKey, seq<nat>>,
                         transDict: map<PairKey, seq<nat>>, cache: map<(string, string), TriggerKey>, e: Stored)
    requires Consistent(tree, stored, triggering, transDict, cache)
    requires Endpoints(tree, e.transition)
    ensures Consistent(tree, stored + [e], Push(triggering, TriggerKeyOf(e), |stored|),
                       Push(transDict, PairKeyOf(e), |stored|), cache)
  {
    FiledAppend(stored, e, TriggerKeyOf);
    FiledAppend(stored, e, PairKeyOf);
  }

  /** Every cached group is the one the search finds. */
  ghost predicate CacheSoundFor(tree: NamedTree, triggering: map<TriggerKey, seq<nat>>,
                                cache: map<(string, string), TriggerKey>)
  {
    forall c :: c in cache ==> Search(tree, triggering, Parse(c.0), c.1, 0) == Ok(cache[c])
  }

  /** The cache stays sound when no group becomes filled or empty. */
  lemma CacheSoundKept(tree: NamedTree, tr: map<TriggerKey, seq<nat>>, tr': map<TriggerKey, seq<nat>>,
                       cache: map<(string, string), TriggerKey>)
    requires CacheSoundFor(tree, tr, cache)
    requires forall x :: Filled(tr, x) <==> Filled(tr', x)
    ensures CacheSoundFor(tree, tr', cache)
  {
    forall c | c in cache
      ensures Search(tree, tr', Parse(c.0), c.1, 0) == Ok(cache[c])
    {
      SearchSameFilled(tree, tr, tr', Parse(c.0), c.1, 0);
    }
  }

  class StateMachine {
    const tree: NamedTree
    var stored: seq<Stored>
    var triggering: map<TriggerKey, seq<nat>>
    var transDict: map<PairKey, seq<nat>>
    var cache: map<(string, string), TriggerKey>
    var verified: bool

    /** Both ends of every transition are states; each dictionary files
        every transition under its key; the cache only names groups that
        exist. */
    ghost predicate Valid()
      reads this
    {
      Consistent(tree, stored, triggering, transDict, cache)
    }

    /** The positions filed in `triggering` are positions of transitions. */
    lemma Indexed()
      requires Valid()
      ensures forall k :: k in triggering ==>
                |triggering[k]| > 0 && forall j :: 0 <= j < |triggering[k]| ==> triggering[k][j] < |stored|
    {
      FiledMembers(stored, TriggerKeyOf);
    }

    /** The tree of states, with no transition yet. */
    constructor (t: NamedTree)
      ensures Valid() && tree == t && stored == [] && cache == map[] && !verified
    {
      tree := t;
      stored := [];
      triggering := map[];
      transDict := map[];
      cache := map[];
      verified := false;
    }

    /** `create_transition` on the state at `at`: the transition is
        appended to the owner's two lists, or nothing changes and the error
        is raised. */
    method CreateTransition(at: Path, d: Decl) returns (r: Result<()>)
      requires Valid()
      modifies this
      ensures Valid() && cache == old(cache) && verified == old(verified)
      ensures var c := Created(tree, at, d);
              (c.Err? ==> r == Err(c.error) && stored == old(stored) &&
                          triggering == old(triggering) && transDict == old(transDict)) &&
              (c.Ok? ==> r == Ok(()) && stored == old(stored) + [c.value] &&
                         triggering == Push(old(triggering), TriggerKeyOf(c.value), |old(stored)|) &&
                         transDict == Push(old(transDict), PairKeyOf(c.value), |old(stored)|))
    {
      var c := Created(tree, at, d);
      if c.Err? {
        return Err(c.error);
      }
      CreatedFinds(tree, at, d);
      var e := c.value;
      ConsistentAppend(tree, stored, triggering, transDict, cache, e);
      triggering := Push(triggering, TriggerKeyOf(e), |stored|);
      transDict := Push(transDict, PairKeyOf(e), |stored|);
      stored := stored + [e];
      r := Ok(());
    }

    /** The transitions of every state's configuration, created in
        constructor order; the first error stops the construction. */
    method InitTransitions(decl: Declared) returns (r: Result<()>)
      requires Valid()
      modifies this
      ensures Valid() && cache == old(cache) && verified == old(verified)
      ensures var all := AllCreated(tree, decl);
              (all.Err? ==> r == Err(all.error)) &&
              (all.Ok? ==> r == Ok(()) && stored == old(stored) + all.value)
    {
      var ds := Declarations(PostOrder(tree), decl);
      ghost var made: seq<Stored> := [];
      var i := 0;
      while i < |ds|
        invariant 0 <= i <= |ds| && Valid() && cache == old(cache) && verified == old(verified)
        invariant CreatedAll(tree, ds[..i]) == Ok(made)
        invariant stored == old(stored) + made
      {
        CreatedAllStep(tree, ds, i, made);
        ghost var c := Created(tree, ds[i].0, ds[i].1);
        var res := CreateTransition(ds[i].0, ds[i].1);
        if res.Err? {
          return res;
        }
        Assoc(old(stored), made, [c.value]);
        made := made + [c.value];
        i := i + 1;
      }
      assert ds[..i] == ds;
      r := Ok(());
    }

    /** Every group ends in an unconditioned transition after conditioned
        ones. */
    ghost predicate AllGroupsOK()
      reads this
      requires Valid()
    {
      Indexed();
      forall k :: k in triggering ==> GroupOK(GroupOf(stored, triggering[k]))
    }

    /** `_verify_transitions` over the groups of every state. */
    method VerifyTransitions() returns (r: Result<()>)
      requires Valid()
      ensures r.Ok? <==> AllGroupsOK()
      ensures r.Err? ==> r.error == MachineError
    {
      Indexed();
      var keys := triggering.Keys;
      while keys != {}
        invariant keys <= triggering.Keys
        invariant forall k :: k in triggering && k !in keys ==> GroupOK(GroupOf(stored, triggering[k]))
        decreases keys
      {
        var k :| k in keys;
        var ids := triggering[k];
        var ok := CheckGroup(ids);
        if !ok {
          return Err(MachineError);
        }
        keys := keys - {k};
      }
      r := Ok(());
    }

    /** The checks of one group: the last transition first, then the
        others in order. */
    method CheckGroup(ids: seq<nat>) returns (ok: bool)
      requires |ids| > 0 && forall j :: 0 <= j < |ids| ==> ids[j] < |stored|
      ensures ok <==> GroupOK(GroupOf(stored, ids))
    {
      if |stored[ids[|ids| - 1]].transition.condition| > 0 {
        return false;
      }
      for j := 0 to |ids| - 1
        invariant forall i :: 0 <= i < j ==> |stored[ids[i]].transition.condition| > 0
      {
        if |stored[ids[j]].transition.condition| == 0 {
          return false;
        }
      }
      return true;
    }

    /** `verify`: the check runs only while the machine is not verified,
        and the flag is set only when it passes. */
    method Verify() returns (r: Result<()>)
      requires Valid()
      modifies this
      ensures Valid() && stored == old(stored) && triggering == old(triggering) &&
              transDict == old(transDict) && cache == old(cache)
      ensures r.Ok? <==> old(verified) || AllGroupsOK()
      ensures r.Err? ==> r.error == MachineError
      ensures verified == (old(verified) || AllGroupsOK())
    {
      if !verified {
        r := VerifyTransitions();
        if r.Err? {
          return;
        }
      }
      verified := true;
      r := Ok(());
    }

    /** `triggers`: the triggers of the transitions of every state. */
    function Triggers(): set<string>
      reads this
    {
      set k | k in triggering :: k.2
    }

    /** The triggers are exactly those of the created transitions. */
    lemma TriggersAre()
      requires Valid()
      ensures Triggers() == set i | 0 <= i < |stored| :: stored[i].transition.trigger
    {
      FiledCovers(stored, TriggerKeyOf);
      FiledMembers(stored, TriggerKeyOf);
      forall s | s in Triggers()
        ensures s in set i | 0 <= i < |stored| :: stored[i].transition.trigger
      {
        var k :| k in triggering && k.2 == s;
        assert |triggering[k]| > 0;
        var i := triggering[k][0];
        assert TriggerKeyOf(stored[i]) == k;
      }
      forall i | 0 <= i < |stored|
        ensures stored[i].transition.trigger in Triggers()
      {
        assert TriggerKeyOf(stored[i]) in triggering;
      }
    }

    /** The cached groups are the ones the search finds. */
    ghost predicate CacheSound()
      reads this
    {
      CacheSoundFor(tree, triggering, cache)
    }

    /** The group `_get_trigger_transitions` gives for a state name and a
        trigger: the cached one, or else the one the search finds. */
    function Candidates(name: string, trigger: string): Result<TriggerKey>
      reads this
    {
      if (name, trigger) in cache then Ok(cache[(name, trigger)]) else Search(tree, triggering, Parse(name), trigger, 0)
    }

    /** A candidate group is always filled; with a sound cache it is the
        group the search finds. */
    lemma CandidatesFilled(name: string, trigger: string)
      requires Valid()
      ensures Candidates(name, trigger).Ok? ==> Filled(triggering, Candidates(name, trigger).value)
      ensures CacheSound() ==> Candidates(name, trigger) == Search(tree, triggering, Parse(name), trigger, 0)
    {
      if (name, trigger) in cache {
        var k := cache[(name, trigger)];
        FiledMembers(stored, TriggerKeyOf);
        assert ListsOf(stored, triggering, TriggerKeyOf);
        assert k in triggering;
      } else {
        SearchFound(tree, triggering, Parse(name), trigger, 0);
      }
    }

    /** The transitions of a group, in creation order. */
    function Group(k: TriggerKey): (ts: seq<Transition>)
      reads this
      requires Valid() && k in triggering
      ensures |ts| == |triggering[k]|
      ensures forall i :: 0 <= i < |ts| ==> triggering[k][i] < |stored| && ts[i] == stored[triggering[k][i]].transition
      ensures forall i :: 0 <= i < |ts| ==> Endpoints(tree, ts[i])
    {
      Indexed();
      GroupOf(stored, triggering[k])
    }

    /** `_get_trigger_transitions`: a cached group is given at once;
        otherwise the levels from the root down are searched and the group
        found is cached. */
    method GetTriggerTransitions(name: string, trigger: string) returns (r: Result<TriggerKey>)
      requires Valid()
      modifies this
      ensures Valid() && stored == old(stored) && triggering == old(triggering) &&
              transDict == old(transDict) && verified == old(verified)
      ensures r == old(Candidates(name, trigger))
      ensures cache == if r.Ok? then old(cache)[(name, trigger) := r.value] else old(cache)
      ensures old(CacheSound()) ==> CacheSound()
    {
      CandidatesFilled(name, trigger);
      if (name, trigger) in cache {
        return Ok(cache[(name, trigger)]);
      }
      r := SearchLevels(tree, triggering, Parse(name), trigger);
      if r.Ok? {
        cache := cache[(name, trigger) := r.value];
      }
    }

    /** `trigger`: the `prepare` callbacks run, the context is entered, the
        candidates are found and the first whose condition holds is
        executed before the context is left. A context the manager yields
        cannot be combined with one the caller passes. */
    method Trigger(h: Holder, trigger: string, outcome: Callback -> bool, managerYields: bool, contextGiven: bool)
      returns (r: Result<()>)
      requires Valid()
      modifies this, h
      ensures Valid() && stored == old(stored) && triggering == old(triggering) &&
              transDict == old(transDict) && verified == old(verified)
      ensures old(CacheSound()) ==> CacheSound()
      ensures old(Candidates(h.state, trigger)).Ok? ==> Filled(triggering, old(Candidates(h.state, trigger)).value)
      ensures var entered := old(h.trace) + [Prepare, EnterContext];
              var found := old(Candidates(h.state, trigger));
              if managerYields && contextGiven then
                r == Err(ValueError) && h.trace == entered && h.state == old(h.state)
              else if found.Err? then
                r == Err(found.error) && h.trace == entered && h.state == old(h.state)
              else
                var ts := Group(found.value);
                var j := FirstHolding(ts, outcome);
                h.trace == entered + Fired(tree, ts, outcome) &&
                if j == |ts| then r == Err(TransitionError) && h.state == old(h.state)
                else r == Ok(()) && h.state == if ts[j].state == ts[j].target then old(h.state) else Written(tree, ts[j])
    {
      var name := h.state;
      CandidatesFilled(name, trigger);
      ghost var expected := Candidates(name, trigger);
      h.trace := h.trace + [Prepare, EnterContext];
      if managerYields && contextGiven {
        return Err(ValueError);
      }
      var found := GetTriggerTransitions(name, trigger);
      assert found == expected;
      if found.Err? {
        return Err(found.error);
      }
      var ts := Group(found.value);
      r := RunAndLeave(tree, ts, h, outcome);
    }

    /** `set_state`: the named state, completed to its first leaf, is
        written to the holder; an unknown name changes nothing. */
    method SetState(h: Holder, name: string) returns (r: Result<()>)
      modifies h
      ensures var v := SetStateValue(tree, name);
              (v.Err? ==> r == Err(v.error) && h.state == old(h.state) && h.trace == old(h.trace)) &&
              (v.Ok? ==> r == Ok(()) && h.state == v.value && h.trace == old(h.trace) + [Write(v.value)])
    {
      var v := SetStateValue(tree, name);
      if v.Err? {
        return Err(v.error);
      }
      h.state := v.value;
      h.trace := h.trace + [Write(v.value)];
      r := Ok(());
    }

    /** `_lookup_transitions`. */
    method LookupTransitions(olds: seq<string>, news: seq<string>, check: bool) returns (r: Result<seq<nat>>)
      ensures r == Looked(tree, transDict, olds, news, check)
    {
      var keys := SplicedKeys(tree, olds, news);
      if keys.Err? {
        return Err(keys.error);
      }
      var ids := CollectIds(transDict, keys.value);
      if check && |ids| == 0 {
        return Err(MachineError);
      }
      r := Ok(ids);
    }

    /** `on_transfer`: the callback is registered on every transition
        between the named states, which must exist. */
    method OnTransfer(olds: seq<string>, news: seq<string>, cb: Callback) returns (r: Result<()>)
      requires Valid()
      modifies this
      ensures Valid() && cache == old(cache) && verified == old(verified)
      ensures triggering == old(triggering) && transDict == old(transDict)
      ensures var found := Looked(tree, old(transDict), olds, news, true);
              (found.Err? ==> r == Err(found.error) && stored == old(stored)) &&
              (found.Ok? ==> r == Ok(()) && stored == WithTransfer(old(stored), found.value, cb))
    {
      var found := LookupTransitions(olds, news, true);
      if found.Err? {
        return Err(found.error);
      }
      var fs := TransferAll(stored, found.value, cb);
      WithTransferKeys(stored, found.value, cb);
      ConsistentKeysOnly(tree, stored, fs, triggering, transDict, cache);
      stored := fs;
      r := Ok(());
    }

    /** `add_condition` as written: once the condition is registered, it
        asks the state for a `transitions` attribute that no state has, so
        it always fails with AttributeError and never adds the default. */
    method AddConditionAsWritten(id: nat, cb: Callback) returns (r: Result<()>)
      requires Valid() && id < |stored|
      modifies this
      ensures Valid()
      ensures cache == old(cache) && verified == old(verified)
      ensures triggering == old(triggering) && transDict == old(transDict)
      ensures stored == WithCondition(old(stored), id, cb)
      ensures r == Err(AttributeError)
    {
      var fs := WithCondition(stored, id, cb);
      ConsistentKeysOnly(tree, stored, fs, triggering, transDict, cache);
      stored := fs;
      r := Err(AttributeError);
    }

    /** `add_condition` as evidently intended: the condition is registered,
        and a group whose last transition it conditions gets a same-state
        default, or MachineError when it already has a same-state
        transition. */
    method AddCondition(id: nat, cb: Callback) returns (r: Result<()>)
      requires Valid() && id < |stored|
      modifies this
      ensures Valid() && cache == old(cache) && verified == old(verified)
      ensures (stored, r) == ConditionAdded(old(stored), id, cb)
    {
      var es2, tr2, td2, res := AddConditionFiled(tree, stored, triggering, transDict, cache, id, cb);
      stored, triggering, transDict, r := es2, tr2, td2, res;
    }

    /** `condition`: the transitions between the named states, which must
        exist, are looked up, the lookup cache is cleared, and the condition
        is added to each in turn; the first error stops the registration. */
    method Condition(olds: seq<string>, news: seq<string>, cb: Callback) returns (r: Result<()>)
      requires Valid()
      modifies this
      ensures Valid() && verified == old(verified) && (old(CacheSound()) ==> CacheSound())
      ensures var found := Looked(tree, old(transDict), olds, news, true);
              (found.Err? ==> r == Err(found.error) && stored == old(stored) && cache == old(cache)) &&
              (found.Ok? ==> cache == map[] && (r.Err? ==> r.error == MachineError) &&
                             (r.Ok? ==> forall i :: 0 <= i < |found.value| ==> Registered(stored, found.value[i], cb)))
    {
      var found := LookupTransitions(olds, news, true);
      if found.Err? {
        return Err(found.error);
      }
      LookedFinds(tree, stored, olds, news, true);
      var ids := found.value;
      assert forall i :: 0 <= i < |ids| ==> ids[i] in ids;
      cache := map[];
      var es2, tr2, td2, res := ConditionAll(tree, stored, triggering, transDict, ids, cb);
      stored, triggering, transDict, r := es2, tr2, td2, res;
    }
  }
}
