/** The transition of states/transitions.py: a move from one state of the
    tree to another under a trigger. Executing it runs the callbacks of the
    states it leaves and enters in a fixed order and writes the new state on
    the holder once, between the exits and the entries. */
module Transitions {
  import opened Wrappers
  import opened PathTools
  import opened Trace
  import opened StateTree

  /** A transition between two states, named by their paths, with its own
      `on_transfer` and `condition` callbacks. */
  datatype Transition = Transition(
    state: Path, target: Path, trigger: string,
    onTransfer: seq<Callback>, condition: seq<Callback>, info: string)

  /** `up`: the state, its parent, and so on to the root, by path. */
  function Up(p: Path): (r: seq<Path>)
    ensures |r| == |p| + 1 && forall i :: 0 <= i <= |p| ==> r[i] == p[..|p| - i]
  {
    seq(|p| + 1, i requires 0 <= i <= |p| => p[..|p| - i])
  }

  /** `common_state`: the state at the longest common prefix of the two
      paths. */
  function CommonPath(t: Transition): (c: Path)
    ensures c <= t.state && c <= t.target
  {
    SpliceLaws(t.state, t.target);
    SpliceOf(t.state, t.target).0
  }

  /** The states whose `on_exit` runs: from the source upward, innermost
      first, stopping before the common state. */
  function ExitPaths(t: Transition): seq<Path>
  {
    Up(t.state)[..|t.state| - |CommonPath(t)|]
  }

  /** The states whose `on_entry` runs: from just below the common state
      down to the target, outermost first. */
  function EntryPaths(t: Transition): seq<Path>
  {
    Reversed(Up(t.target)[..|t.target| - |CommonPath(t)|])
  }

  /** The exits are the prefixes of the source longer than the common
      prefix, longest first; the entries are those of the target, shortest
      first. */
  lemma ExitEntryLaws(t: Transition)
    ensures var c := CommonPath(t); var ex := ExitPaths(t);
            |ex| == |t.state| - |c| &&
            forall i :: 0 <= i < |ex| ==> ex[i] == t.state[..|t.state| - i] && |c| < |ex[i]|
    ensures var c := CommonPath(t); var en := EntryPaths(t);
            |en| == |t.target| - |c| &&
            forall i :: 0 <= i < |en| ==> en[i] == t.target[..|c| + 1 + i] && |c| < |en[i]|
  {
    var c := CommonPath(t);
    var down := Up(t.target)[..|t.target| - |c|];
    forall i | 0 <= i < |down|
      ensures EntryPaths(t)[i] == t.target[..|c| + 1 + i]
    {
      ReversedAt(down, i);
    }
  }

  /** `on_exits` with its loop over `up`. */
  method OnExits(t: Transition) returns (r: seq<Path>)
    ensures r == ExitPaths(t)
  {
    var up := Up(t.state);
    var common := CommonPath(t);
    var n := |t.state| - |common|;
    r := [];
    var i := 0;
    while i < |up| && up[i] != common
      invariant 0 <= i <= n && r == up[..i]
    {
      assert |up[i]| == |t.state| - i;
      r := r + [up[i]];
      i := i + 1;
    }
    assert up[n] == common;
  }

  /** `on_entries` with its loop over the target's `up`, reversed. */
  method OnEntries(t: Transition) returns (r: seq<Path>)
    ensures r == EntryPaths(t)
  {
    var up := Up(t.target);
    var common := CommonPath(t);
    var n := |t.target| - |common|;
    var entries: seq<Path> := [];
    var i := 0;
    while i < |up| && up[i] != common
      invariant 0 <= i <= n && entries == up[..i]
    {
      assert |up[i]| == |t.target| - i;
      entries := entries + [up[i]];
      i := i + 1;
    }
    assert up[n] == common;
    r := Reversed(entries);
  }

  /** `set_state(obj, state)` of the machine: the state named must exist
      (KeyError becomes TransitionError; a bad index still raises
      IndexError) and the value stored is its path followed by its default
      path, down to a leaf. */
  function SetStateValue(tree: StateNode, name: string): (r: Result<string>)
    ensures r.Err? <==> StateAt(tree, Parse(name)).Err?
    ensures r.Err? ==> r.error == (if StateAt(tree, Parse(name)).error == KeyError then TransitionError
                                   else StateAt(tree, Parse(name)).error)
  {
    var p := Parse(name);
    match StateAt(tree, p)
    case Err(e) => Err(if e == KeyError then TransitionError else e)
    case Ok(s) => Ok(Print(p + FirstLeafPath(s)))
  }

  /** The value stored always names a leaf below the state named. */
  lemma SetStateStoresLeaf(tree: NamedTree, name: string)
    requires SetStateValue(tree, name).Ok?
    ensures var v := Parse(SetStateValue(tree, name).value);
            StateAt(tree, v).Ok? && IsLeaf(StateAt(tree, v).value) && Parse(name) <= v
  {
    var p := Parse(name);
    var s := StateAt(tree, p).value;
    var f := FirstLeafPath(s);
    ParseWellFormed(name);
    StateAtBounds(tree, p);
    FirstLeafPathWellFormed(s);
    assert WellFormed(p + f);
    ParsePrint(p + f);
    StateAtConcat(tree, p, f);
    FirstLeafPathLeads(s);
  }

  /** Both ends of a transition are states of the tree. */
  predicate Endpoints(tree: StateNode, t: Transition)
  {
    StateAt(tree, t.state).Ok? && StateAt(tree, t.target).Ok?
  }

  /** Writing the target's name always succeeds. */
  lemma TargetWritable(tree: NamedTree, t: Transition)
    requires Endpoints(tree, t)
    ensures SetStateValue(tree, Print(t.target)).Ok?
  {
    StateAtWellFormed(tree, t.target);
    ParsePrint(t.target);
  }

  /** The value the holder's state is set to when the transition moves. */
  function Written(tree: NamedTree, t: Transition): string
    requires Endpoints(tree, t)
  {
    TargetWritable(tree, t);
    SetStateValue(tree, Print(t.target)).value
  }

  function ExitEvents(ps: seq<Path>): (r: seq<Event>)
    ensures |r| == |ps| && forall i :: 0 <= i < |ps| ==> r[i] == Exit(ps[i])
  {
    seq(|ps|, i requires 0 <= i < |ps| => Exit(ps[i]))
  }

  function EntryEvents(ps: seq<Path>): (r: seq<Event>)
    ensures |r| == |ps| && forall i :: 0 <= i < |ps| ==> r[i] == Entry(ps[i])
  {
    seq(|ps|, i requires 0 <= i < |ps| => Entry(ps[i]))
  }

  function StayEvents(ps: seq<Path>): (r: seq<Event>)
    ensures |r| == |ps| && forall i :: 0 <= i < |ps| ==> r[i] == Stay(ps[i])
  {
    seq(|ps|, i requires 0 <= i < |ps| => Stay(ps[i]))
  }

  /** What a move runs after writing the state: `on_transfer`, the
      entries, and `on_stay` from the common state up to the root. */
  function AfterWrite(t: Transition): seq<Event>
  {
    [Transfer(t.state, t.target)] + EntryEvents(EntryPaths(t)) + StayEvents(Up(CommonPath(t)))
  }

  /** What executing the transition does to the holder's trace: a
      same-state transition runs `on_transfer` and then `on_stay` from the
      state up to the root; any other runs the exits, writes the state, and
      then runs what follows the write. */
  function ExecuteEvents(tree: NamedTree, t: Transition): seq<Event>
    requires Endpoints(tree, t)
  {
    if t.state == t.target then
      [Transfer(t.state, t.target)] + StayEvents(Up(t.state))
    else
      ExitEvents(ExitPaths(t)) + [Write(Written(tree, t))] + AfterWrite(t)
  }

  /** The positions of a sequence with one element in the middle. */
  lemma Around<T>(a: seq<T>, x: T, b: seq<T>)
    ensures var s := a + [x] + b;
            |s| == |a| + 1 + |b| && s[|a|] == x &&
            (forall i :: 0 <= i < |a| ==> s[i] == a[i]) &&
            (forall i :: |a| < i < |s| ==> s[i] == b[i - |a| - 1])
  {
  }

  /** The events after the write: `on_transfer` first, then the entries
      from just below the common state down to the target, then `on_stay`
      from the common state up to the root; nothing is written. */
  lemma AfterWriteLaws(t: Transition)
    ensures var b := AfterWrite(t); var c := CommonPath(t); var m := |t.target| - |c|;
            |b| == 1 + m + |c| + 1 && b[0] == Transfer(t.state, t.target) &&
            (forall i :: 0 <= i < |b| ==> !b[i].Write? && !b[i].Exit?) &&
            (forall i :: 0 <= i < |b| ==> (b[i].Entry? <==> 1 <= i <= m)) &&
            (forall i :: 1 <= i <= m ==> b[i] == Entry(t.target[..|c| + i])) &&
            b[1 + m..] == StayEvents(Up(c))
  {
    ExitEntryLaws(t);
    var en := EntryEvents(EntryPaths(t));
    var st := StayEvents(Up(CommonPath(t)));
    var b := AfterWrite(t);
    assert b == [Transfer(t.state, t.target)] + en + st;
    assert forall i :: 1 <= i <= |en| ==> b[i] == en[i - 1];
    assert forall i :: 1 + |en| <= i < |b| ==> b[i] == st[i - 1 - |en|];
    assert b[1 + |en|..] == st;
  }

  /** Leaving a state: every exit, innermost first, comes before the one
      write of the state; everything after the write is as AfterWriteLaws
      says. */
  lemma CrossStateOrder(tree: NamedTree, t: Transition)
    requires Endpoints(tree, t) && t.state != t.target
    ensures var ev := ExecuteEvents(tree, t); var w := |ExitPaths(t)|;
            w < |ev| && ev[w] == Write(Written(tree, t)) && ev[w + 1..] == AfterWrite(t) &&
            (forall i :: 0 <= i < |ev| ==> (ev[i].Write? <==> i == w)) &&
            (forall i :: 0 <= i < w ==> ev[i] == Exit(t.state[..|t.state| - i])) &&
            (forall i :: w < i < |ev| ==> !ev[i].Exit?)
  {
    ExitEntryLaws(t);
    AfterWriteLaws(t);
    Around(ExitEvents(ExitPaths(t)), Write(Written(tree, t)), AfterWrite(t));
    var ev := ExecuteEvents(tree, t);
    assert ev[|ExitPaths(t)| + 1..] == AfterWrite(t);
  }

  /** Staying in a state: no exit, no entry and no write; `on_transfer`
      first, then `on_stay` from the state up to the root. */
  lemma SameStateEvents(tree: NamedTree, t: Transition)
    requires Endpoints(tree, t) && t.state == t.target
    ensures var ev := ExecuteEvents(tree, t);
            ev[0] == Transfer(t.state, t.target) && ev[1..] == StayEvents(Up(t.state)) &&
            forall i :: 0 <= i < |ev| ==> !ev[i].Write? && !ev[i].Exit? && !ev[i].Entry?
  {
  }

  /** `execute`: the callback loops of the branch chosen, with the state
      written in between on a move; the holder is returned. */
  method Execute(tree: NamedTree, t: Transition, h: Holder)
    requires Endpoints(tree, t)
    modifies h
    ensures h.trace == old(h.trace) + ExecuteEvents(tree, t)
    ensures h.state == if t.state == t.target then old(h.state) else Written(tree, t)
  {
    if t.state == t.target {
      RunAll(h, [Transfer(t.state, t.target)] + StayEvents(Up(t.state)));
    } else {
      Move(tree, t, h);
    }
  }

  /** The branch of `execute` that leaves the state. */
  method Move(tree: NamedTree, t: Transition, h: Holder)
    requires Endpoints(tree, t) && t.state != t.target
    modifies h
    ensures h.trace == old(h.trace) + (ExitEvents(ExitPaths(t)) + [Write(Written(tree, t))] + AfterWrite(t))
    ensures h.state == Written(tree, t)
  {
    var exits := OnExits(t);
    var entries := OnEntries(t);
    ghost var before := h.trace;
    RunAll(h, ExitEvents(exits));
    WriteState(tree, t, h);
    RunAll(h, [Transfer(t.state, t.target)] + EntryEvents(entries) + StayEvents(Up(CommonPath(t))));
    Regroup(before, ExitEvents(exits), [Write(Written(tree, t))], AfterWrite(t));
  }

  /** Four pieces of a trace, appended one after another. */
  lemma Regroup<T>(a: seq<T>, b: seq<T>, c: seq<T>, d: seq<T>)
    ensures a + b + c + d == a + (b + c + d)
  {
  }

  /** `set_state` on the holder with the target's name, which exists. */
  method WriteState(tree: NamedTree, t: Transition, h: Holder)
    requires Endpoints(tree, t)
    modifies h
    ensures h.trace == old(h.trace) + [Write(Written(tree, t))] && h.state == Written(tree, t)
  {
    TargetWritable(tree, t);
    var v := SetStateValue(tree, Print(t.target));
    h.state := v.value;
    h.trace := h.trace + [Write(v.value)];
  }

  /** One callback list after another, in order. */
  method RunAll(h: Holder, callbacks: seq<Event>)
    modifies h
    ensures h.trace == old(h.trace) + callbacks && h.state == old(h.state)
  {
    for i := 0 to |callbacks|
      invariant h.trace == old(h.trace) + callbacks[..i] && h.state == old(h.state)
    {
      assert callbacks[..i + 1] == callbacks[..i] + [callbacks[i]];
      h.trace := h.trace + [callbacks[i]];
    }
    assert callbacks[..|callbacks|] == callbacks;
  }

  /** A value in the dictionary `as_json_dict` returns. */
  datatype JsonValue = Text(s: string) | Callbacks(cbs: seq<Callback>)

  /** `as_json_dict`: the two state names and the trigger are always
      there; a callback kind and the info appear exactly when they are not
      empty. */
  function AsJsonDict(t: Transition): (r: map<string, JsonValue>)
    ensures "old_state" in r && "new_state" in r && "trigger" in r
    ensures r["old_state"] == Text(Print(t.state)) && r["new_state"] == Text(Print(t.target)) &&
            r["trigger"] == Text(t.trigger)
    ensures ("on_transfer" in r <==> |t.onTransfer| > 0) && ("condition" in r <==> |t.condition| > 0) &&
            ("info" in r <==> |t.info| > 0)
    ensures "on_transfer" in r ==> r["on_transfer"] == Callbacks(t.onTransfer)
    ensures "condition" in r ==> r["condition"] == Callbacks(t.condition)
    ensures "info" in r ==> r["info"] == Text(t.info)
    ensures r.Keys <= {"old_state", "new_state", "trigger", "on_transfer", "condition", "info"}
  {
    var base := map["old_state" := Text(Print(t.state)), "new_state" := Text(Print(t.target)),
                     "trigger" := Text(t.trigger)];
    var withTransfer := if |t.onTransfer| > 0 then base["on_transfer" := Callbacks(t.onTransfer)] else base;
    var withCondition := if |t.condition| > 0 then withTransfer["condition" := Callbacks(t.condition)] else withTransfer;
    if |t.info| > 0 then withCondition["info" := Text(t.info)] else withCondition
  }
}
