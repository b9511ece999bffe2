/** The transition of states/transition.py, the one the older nested
    machine (states/old_state_machine.py) builds. It is defined on one level
    of the machine, between two states named by paths relative to that
    level; executing it runs its condition and then either the `on_stay`
    and `on_transfer` callbacks of a state it stays in, or the exits of
    the old states innermost first, one write of the new state's name, the
    transfer, and the entries of the new states outermost first. */
module TransitionLegacy {
  import opened Wrappers
  import opened PathTools
  import opened Trace
  import opened StateTree
  import opened CallbackStore
  import Transitions

  /* ---------- _validate ---------- */

  /** `s.split(".", 1)[0]`: the text before the first dot. */
  function FirstPart(s: string): string
  {
    Split(s)[0]
  }

  /** `len(s.split(".", 1)) > 1`: the name has a dot. */
  predicate Dotted(s: string)
  {
    Separator in s
  }

  /** A name without a dot is its own first part. */
  lemma {:induction false} UndottedFirstPart(s: string)
    requires !Dotted(s)
    ensures FirstPart(s) == s
  {
    if |s| > 0 {
      assert !Dotted(s[1..]) by {
        forall i | 0 <= i < |s[1..]| ensures s[1..][i] != Separator {
          assert s[1..][i] == s[i + 1];
        }
      }
      UndottedFirstPart(s[1..]);
      assert s == [s[0]] + s[1..];
    }
  }

  /** `_validate`: a transition of this level whose ends are dotted paths
      starting in the same sub-state belongs to that sub-state. */
  function Validate(oldState: string, newState: string): (r: Result<()>)
    ensures r.Err? ==> r.error == MachineError
  {
    if (Dotted(oldState) || Dotted(newState)) && FirstPart(oldState) == FirstPart(newState) then Err(MachineError)
    else Ok(())
  }

  /** A transition is accepted exactly when its ends start in different
      sub-states of this level, or it stays in one sub-state named without
      a dot. */
  lemma ValidateLaws(oldState: string, newState: string)
    ensures Validate(oldState, newState).Ok? <==>
      FirstPart(oldState) != FirstPart(newState) || (oldState == newState && !Dotted(oldState))
  {
    if !Dotted(oldState) && !Dotted(newState) {
      UndottedFirstPart(oldState);
      UndottedFirstPart(newState);
    }
  }

  /* ---------- looking states up ---------- */

  /** `state[key]` on a state of the older machine: a sub-state is found by
      its name only (any other key is a KeyError), and a state without
      sub-states cannot be subscripted (TypeError). */
  function Subscript(t: StateNode, k: Seg): (r: Result<StateNode>)
    ensures r.Ok? <==> !IsLeaf(t) && k.Key? && k.name in SubNames(t)
    ensures r.Err? ==> r.error == (if IsLeaf(t) then TypeError else KeyError)
    ensures r.Ok? ==> r.value in t.subs && r.value.name == k.name
  {
    if IsLeaf(t) then Err(TypeError)
    else if k.Idx? then Err(KeyError)
    else Child(t, k)
  }

  /** The state reached by subscripting along a path. */
  function Reach(t: StateNode, p: Path): Result<StateNode>
  {
    if |p| == 0 then Ok(t)
    else
      var c :- Subscript(t, p[0]);
      Reach(c, p[1..])
  }

  /** Where plain subscripting succeeds, `get_in` finds the same state. */
  lemma {:induction false} ReachObjectAt(t: StateNode, p: Path)
    requires Reach(t, p).Ok?
    ensures ObjectAt(t, p) == Reach(t, p)
  {
    if |p| > 0 {
      ReachObjectAt(Subscript(t, p[0]).value, p[1..]);
    }
  }

  /** Reaching a longer path goes on from the state the shorter one reached. */
  lemma {:induction false} ReachAppend(t: StateNode, p: Path, k: Seg)
    requires Reach(t, p).Ok?
    ensures Reach(t, p + [k]) == Subscript(Reach(t, p).value, k)
  {
    if |p| > 0 {
      assert (p + [k])[1..] == p[1..] + [k];
      ReachAppend(Subscript(t, p[0]).value, p[1..], k);
    }
  }

  /** `iter_in` yields, after each key, the state reached by the path so
      far; it succeeds exactly when the whole path can be reached. */
  lemma {:induction false} WalkReaches(t: StateNode, p: Path)
    ensures Walk(p, t, Subscript).Ok? <==> Reach(t, p).Ok?
    ensures Walk(p, t, Subscript).Ok? ==>
      forall i :: 0 <= i < |p| ==> Reach(t, p[..i + 1]) == Ok(Walk(p, t, Subscript).value[i])
  {
    if |p| > 0 && Subscript(t, p[0]).Ok? {
      var c := Subscript(t, p[0]).value;
      WalkReaches(c, p[1..]);
      if Walk(p, t, Subscript).Ok? {
        var w := Walk(p, t, Subscript).value;
        forall i | 0 <= i < |p|
          ensures Reach(t, p[..i + 1]) == Ok(w[i])
        {
          assert p[..i + 1][0] == p[0];
          if i > 0 {
            assert p[..i + 1][1..] == p[1..][..i];
          }
        }
      }
    }
  }

  /* ---------- the transition ---------- */

  /** A transition as `__init__` leaves it; `base` is the full path of the
      level it is defined on, and the callbacks live in a separate store. */
  datatype LegacyTransition = LegacyTransition(
    base: Path, oldPath: Path, newPath: Path, trigger: string, info: string,
    exitStates: seq<StateNode>, entryStates: seq<StateNode>, newStateName: string)

  /** `Transition.__init__`: the ends are validated and looked up; the exit
      states are the states along the old path, innermost first, and the
      entry states those along the new path, outermost first. The name
      written on a move is the level's full path followed by the new path,
      which is not extended down to a leaf. */
  function Make(machine: StateNode, base: Path, oldState: string, newState: string,
                trigger: string, info: string): (r: Result<LegacyTransition>)
    ensures Validate(oldState, newState).Err? ==> r == Err(MachineError)
    ensures r.Ok? ==>
      var t := r.value;
      Validate(oldState, newState).Ok? && t.base == base && t.trigger == trigger && t.info == info &&
      t.oldPath == Parse(oldState) && t.newPath == Parse(newState) &&
      t.newStateName == Print(base + t.newPath) &&
      |t.exitStates| == |t.oldPath| && |t.entryStates| == |t.newPath|
  {
    var _ :- Validate(oldState, newState);
    var oldPath, newPath := Parse(oldState), Parse(newState);
    var _ :- ObjectAt(machine, oldPath);
    var _ :- ObjectAt(machine, newPath);
    var exits :- IterOut(oldPath, machine, Subscript, false);
    var entries :- IterIn(newPath, machine, Subscript, false);
    Ok(LegacyTransition(base, oldPath, newPath, trigger, info, exits, entries, Print(base + newPath)))
  }

  /** A transition is made exactly when it is valid and both ends can be
      reached by name; its exit states are then the states at the
      prefixes of the old path, longest first, and its entry states those
      at the prefixes of the new path, shortest first. */
  lemma MakeLaws(machine: StateNode, base: Path, oldState: string, newState: string, trigger: string, info: string)
    ensures Make(machine, base, oldState, newState, trigger, info).Ok? <==>
      Validate(oldState, newState).Ok? && Reach(machine, Parse(oldState)).Ok? && Reach(machine, Parse(newState)).Ok?
  {
    if Validate(oldState, newState).Ok? && Reach(machine, Parse(oldState)).Ok? && Reach(machine, Parse(newState)).Ok? {
      MakeReached(machine, base, oldState, newState, trigger, info);
    } else {
      MakeUnreached(machine, base, oldState, newState, trigger, info);
    }
  }

  /** The states a made transition exits and enters. */
  lemma MakeStates(machine: StateNode, base: Path, oldState: string, newState: string, trigger: string, info: string)
    requires Make(machine, base, oldState, newState, trigger, info).Ok?
    ensures var t := Make(machine, base, oldState, newState, trigger, info).value; var n := |t.oldPath|;
      (forall i :: 0 <= i < n ==> Reach(machine, t.oldPath[..n - i]) == Ok(t.exitStates[i])) &&
      (forall i :: 0 <= i < |t.newPath| ==> Reach(machine, t.newPath[..i + 1]) == Ok(t.entryStates[i]))
  {
    MakeLaws(machine, base, oldState, newState, trigger, info);
    MakeReached(machine, base, oldState, newState, trigger, info);
    var t := Make(machine, base, oldState, newState, trigger, info).value;
    assert t.oldPath == Parse(oldState) && t.newPath == Parse(newState);
    assert t.exitStates == IterOut(t.oldPath, machine, Subscript, false).value;
    assert t.entryStates == IterIn(t.newPath, machine, Subscript, false).value;
    ExitStatesReach(machine, t.oldPath);
    EntryStatesReach(machine, t.newPath);
  }

  lemma MakeReached(machine: StateNode, base: Path, oldState: string, newState: string, trigger: string, info: string)
    requires Validate(oldState, newState).Ok?
    requires Reach(machine, Parse(oldState)).Ok? && Reach(machine, Parse(newState)).Ok?
    ensures IterOut(Parse(oldState), machine, Subscript, false).Ok? && IterIn(Parse(newState), machine, Subscript, false).Ok?
    ensures Make(machine, base, oldState, newState, trigger, info) ==
      Ok(LegacyTransition(base, Parse(oldState), Parse(newState), trigger, info,
                          IterOut(Parse(oldState), machine, Subscript, false).value,
                          IterIn(Parse(newState), machine, Subscript, false).value,
                          Print(base + Parse(newState))))
  {
    WalkReaches(machine, Parse(oldState));
    WalkReaches(machine, Parse(newState));
    ReachObjectAt(machine, Parse(oldState));
    ReachObjectAt(machine, Parse(newState));
  }

  lemma MakeUnreached(machine: StateNode, base: Path, oldState: string, newState: string, trigger: string, info: string)
    requires !(Validate(oldState, newState).Ok? && Reach(machine, Parse(oldState)).Ok? && Reach(machine, Parse(newState)).Ok?)
    ensures Make(machine, base, oldState, newState, trigger, info).Err?
  {
    WalkReaches(machine, Parse(oldState));
    WalkReaches(machine, Parse(newState));
  }

  lemma ExitStatesReach(machine: StateNode, p: Path)
    requires Reach(machine, p).Ok?
    ensures IterOut(p, machine, Subscript, false).Ok?
    ensures var outs := IterOut(p, machine, Subscript, false).value;
      |outs| == |p| && forall i :: 0 <= i < |p| ==> Reach(machine, p[..|p| - i]) == Ok(outs[i])
  {
    WalkReaches(machine, p);
    var ins := Walk(p, machine, Subscript).value;
    assert IterIn(p, machine, Subscript, false) == Ok(ins);
    IterOutReverses(p, machine, Subscript, false);
    var outs := IterOut(p, machine, Subscript, false).value;
    forall i | 0 <= i < |p|
      ensures Reach(machine, p[..|p| - i]) == Ok(outs[i])
    {
      var k := |p| - 1 - i;
      assert p[..k + 1] == p[..|p| - i];
      assert Reach(machine, p[..k + 1]) == Ok(ins[k]);
      assert outs[i] == ins[k];
    }
  }

  lemma EntryStatesReach(machine: StateNode, p: Path)
    requires Reach(machine, p).Ok?
    ensures IterIn(p, machine, Subscript, false).Ok?
    ensures var ins := IterIn(p, machine, Subscript, false).value;
      |ins| == |p| && forall i :: 0 <= i < |p| ==> Reach(machine, p[..i + 1]) == Ok(ins[i])
  {
    WalkReaches(machine, p);
  }

  /* ---------- execute ---------- */

  /** The exit callbacks of the states along `p` below `base`, innermost
      first. */
  function ExitTrail(base: Path, p: Path): seq<Event>
    decreases |p|
  {
    if |p| == 0 then [] else [Exit(base + p)] + ExitTrail(base, p[..|p| - 1])
  }

  /** The entry callbacks of the states along `p` below `base`, outermost
      first. */
  function EntryTrail(base: Path, p: Path): seq<Event>
    decreases |p|
  {
    if |p| == 0 then [] else EntryTrail(base, p[..|p| - 1]) + [Entry(base + p)]
  }

  /** One exit per state along the path, from the deepest outward. */
  lemma {:induction false} ExitTrailAt(base: Path, p: Path)
    ensures |ExitTrail(base, p)| == |p| &&
            forall i :: 0 <= i < |p| ==> ExitTrail(base, p)[i] == Exit(base + p[..|p| - i])
    decreases |p|
  {
    if |p| > 0 {
      var q := p[..|p| - 1];
      ExitTrailAt(base, q);
      forall i | 1 <= i < |p|
        ensures ExitTrail(base, p)[i] == Exit(base + p[..|p| - i])
      {
        assert ExitTrail(base, p)[i] == ExitTrail(base, q)[i - 1];
        assert q[..|q| - (i - 1)] == p[..|p| - i];
      }
      assert p[..|p|] == p;
    }
  }

  /** One entry per state along the path, from the outermost inward. */
  lemma {:induction false} EntryTrailAt(base: Path, p: Path)
    ensures |EntryTrail(base, p)| == |p| &&
            forall i :: 0 <= i < |p| ==> EntryTrail(base, p)[i] == Entry(base + p[..i + 1])
    decreases |p|
  {
    if |p| > 0 {
      var q := p[..|p| - 1];
      EntryTrailAt(base, q);
      forall i | 0 <= i < |q|
        ensures EntryTrail(base, p)[i] == Entry(base + p[..i + 1])
      {
        assert EntryTrail(base, p)[i] == EntryTrail(base, q)[i];
        assert q[..i + 1] == p[..i + 1];
      }
      assert p[..|p|] == p;
    }
  }

  function From(t: LegacyTransition): Path { t.base + t.oldPath }

  function To(t: LegacyTransition): Path { t.base + t.newPath }

  /** What `execute` does once the condition holds. Staying (`old_state is
      new_state`, which for states reached by name means the same path):
      `on_stay` of the state, then `on_transfer`. Moving: the exits, the
      write, `on_transfer`, the entries. */
  function Fired(t: LegacyTransition): seq<Event>
  {
    if t.oldPath == t.newPath then [Stay(From(t)), Transfer(From(t), To(t))]
    else ExitTrail(t.base, t.oldPath) + [Write(t.newStateName), Transfer(From(t), To(t))]
         + EntryTrail(t.base, t.newPath)
  }

  /** On a move the state is written exactly once, after every exit and
      before the transfer and every entry; the exits run from the old state
      outward and the entries from the outermost new state inward. Staying
      writes nothing and runs no exit or entry. */
  lemma FiredOrder(t: LegacyTransition)
    ensures t.oldPath == t.newPath ==>
      var ev := Fired(t);
      ev == [Stay(From(t)), Transfer(From(t), To(t))] &&
      forall i :: 0 <= i < |ev| ==> !ev[i].Write? && !ev[i].Exit? && !ev[i].Entry?
    ensures t.oldPath != t.newPath ==>
      var ev := Fired(t); var n := |t.oldPath|; var m := |t.newPath|;
      |ev| == n + 2 + m && ev[n] == Write(t.newStateName) && ev[n + 1] == Transfer(From(t), To(t)) &&
      (forall i :: 0 <= i < |ev| ==> (ev[i].Write? <==> i == n)) &&
      (forall i :: 0 <= i < n ==> ev[i] == Exit(t.base + t.oldPath[..n - i])) &&
      (forall j :: n + 2 <= j < |ev| ==> ev[j] == Entry(t.base + t.newPath[..j - n - 1]))
  {
    if t.oldPath != t.newPath {
      var ex, en := ExitTrail(t.base, t.oldPath), EntryTrail(t.base, t.newPath);
      ExitTrailAt(t.base, t.oldPath);
      EntryTrailAt(t.base, t.newPath);
      var ev := Fired(t);
      var n := |t.oldPath|;
      assert ev == ex + [Write(t.newStateName), Transfer(From(t), To(t))] + en;
      assert forall i :: 0 <= i < n ==> ev[i] == ex[i];
      assert forall j :: n + 2 <= j < |ev| ==> ev[j] == en[j - n - 2];
    }
  }

  /** Exits and entries write nothing. */
  lemma {:induction false} TrailsWriteNothing(base: Path, p: Path)
    ensures Writes(ExitTrail(base, p)) == [] && Writes(EntryTrail(base, p)) == []
    decreases |p|
  {
    if |p| > 0 {
      var q := p[..|p| - 1];
      TrailsWriteNothing(base, q);
      WritesOne(Exit(base + p));
      WritesOne(Entry(base + p));
      WritesAppend([Exit(base + p)], ExitTrail(base, q));
      WritesAppend(EntryTrail(base, q), [Entry(base + p)]);
    }
  }

  /** Firing writes the state once, with the transition's target, on a
      move, and not at all when staying. */
  lemma FiredWrites(t: LegacyTransition)
    ensures Writes(Fired(t)) == if t.oldPath != t.newPath then [t.newStateName] else []
  {
    var tr := Transfer(From(t), To(t));
    if t.oldPath != t.newPath {
      var ex, en := ExitTrail(t.base, t.oldPath), EntryTrail(t.base, t.newPath);
      var w := Write(t.newStateName);
      TrailsWriteNothing(t.base, t.oldPath);
      TrailsWriteNothing(t.base, t.newPath);
      WritesAround(ex, w, tr, en);
      assert Fired(t) == ex + [w, tr] + en;
    } else {
      var st := Stay(From(t));
      WritesOne(st);
      WritesOne(tr);
      WritesPair(st, tr);
      assert Fired(t) == [st, tr];
    }
  }

  /** A write between steps that write nothing is the only write. */
  lemma WritesAround(ex: seq<Event>, w: Event, tr: Event, en: seq<Event>)
    requires Writes(ex) == [] && Writes(en) == [] && w.Write? && !tr.Write?
    ensures Writes(ex + [w, tr] + en) == [w.value]
  {
    WritesOne(w);
    WritesOne(tr);
    WritesPair(w, tr);
    WritesAppend(ex, [w, tr]);
    WritesAppend(ex + [w, tr], en);
  }



  /** The callbacks a transition keeps: `on_transfer` and `condition`. */
  predicate TransitionStore(store: Callbacks)
    reads store
  {
    store.kinds.Keys == {"on_transfer", "condition"}
  }

  /** `super().__init__(on_transfer=..., condition=...)`. */
  method NewStore(onTransfer: seq<Callback>, condition: seq<Callback>) returns (store: Callbacks)
    ensures fresh(store) && store.Valid() && TransitionStore(store)
    ensures store.kinds["on_transfer"] == onTransfer && store.kinds["condition"] == condition
  {
    var init := [("on_transfer", ListOf(onTransfer)), ("condition", ListOf(condition))];
    StripLeftStops("on_transfer");
    StripRightStops("on_transfer");
    StripLeftStops("condition");
    StripRightStops("condition");
    assert Strip("on_transfer") == "on_transfer" && Strip("condition") == "condition";
    assert init[..1][..0] == [];
    assert Arguments(init[..1]) == map["on_transfer" := ListOf(onTransfer)];
    assert Arguments(init) == map["on_transfer" := ListOf(onTransfer), "condition" := ListOf(condition)];
    store := new Callbacks(init);
  }

  /** `execute` as written asks the store for `do_condition`, a kind no
      transition has, so it raises AttributeError before any callback runs. */
  method ExecuteAsWritten(t: LegacyTransition, store: Callbacks, outcome: Callback -> bool)
    returns (r: Result<bool>)
    requires TransitionStore(store)
    ensures r == Err(AttributeError)
  {
    var found, _ := store.Call("do_condition", outcome);
    r := found;
  }

  /** `execute` with the condition kind the store has: every condition
      callback runs; if all hold, the transition fires and the result is
      true, otherwise nothing else happens and the result is false. */
  method Execute(t: LegacyTransition, store: Callbacks, h: Holder, outcome: Callback -> bool)
    returns (done: bool)
    requires TransitionStore(store)
    modifies h
    ensures done == AllHold(store.kinds["condition"], outcome)
    ensures h.trace == old(h.trace) + [Condition(From(t), To(t))] + (if done then Fired(t) else [])
    ensures h.state == if done && t.oldPath != t.newPath then t.newStateName else old(h.state)
  {
    var holds, _ := store.Call("condition", outcome);
    h.trace := h.trace + [Condition(From(t), To(t))];
    done := holds.value;
    if !done {
      return;
    }
    if t.oldPath == t.newPath {
      h.trace := h.trace + [Stay(From(t)), Transfer(From(t), To(t))];
    } else {
      ghost var before := h.trace;
      var ex, en := ExitTrail(t.base, t.oldPath), EntryTrail(t.base, t.newPath);
      Transitions.RunAll(h, ex);
      h.state := t.newStateName;
      h.trace := h.trace + [Write(t.newStateName)];
      Transitions.RunAll(h, [Transfer(From(t), To(t))] + en);
      Spliced(before, ex, Write(t.newStateName), Transfer(From(t), To(t)), en);
    }
  }

  lemma Spliced(before: seq<Event>, ex: seq<Event>, w: Event, tr: Event, en: seq<Event>)
    ensures before + ex + [w] + ([tr] + en) == before + (ex + [w, tr] + en)
  {
    assert [w] + [tr] == [w, tr];
  }
}
