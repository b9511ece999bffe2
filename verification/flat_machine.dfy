/** The flat state machine of statemachine/machine.py: named states with
    entry and exit callbacks, transitions between two states that run when a
    trigger is called or when the state is assigned, and an object that keeps
    its current and previous state. Every callback argument passes through
    `callbackify`, so of each callback list only the first callback runs. */
module FlatMachine {
  import opened Wrappers
  import opened Trace
  import OldPathTools

  /* ---------- declarations ---------- */

  /** `{"name": ..., "on_entry": ..., "on_exit": ...}`; a single callback is
      the one-item list. */
  datatype StateDecl = StateDecl(name: string, onEntry: seq<Callback>, onExit: seq<Callback>)

  /** One end of a declared transition: a name (the wildcard `"*"` included)
      or a list of names. */
  datatype Endpoint = Name(name: string) | Names(names: seq<string>)

  /** `{"old_state", "new_state", "triggers", "on_transfer", "condition"}`;
      `condition == None` is the default condition. */
  datatype TransDecl = TransDecl(oldState: Endpoint, newState: Endpoint, triggers: seq<string>,
                                 onTransfer: seq<Callback>, condition: Option<seq<Callback>>)

  /** The `Transition` object: both `State` objects and its own callbacks. */
  datatype FlatTrans = FlatTrans(source: StateDecl, target: StateDecl,
                                 onTransfer: seq<Callback>, condition: Option<seq<Callback>>)

  /** The constructed machine. `states` is the ordered state dict; the
      trigger dict refers to a transition by its key in `transitions`. */
  datatype Machine = Machine(name: string, states: seq<StateDecl>,
                             transitions: map<(string, string), FlatTrans>,
                             triggers: map<(string, string), (string, string)>,
                             beforeAnyExit: seq<Callback>, afterAnyEntry: seq<Callback>)

  /* ---------- the state dict ---------- */

  predicate DistinctNames(ds: seq<StateDecl>)
  {
    forall i, j :: 0 <= i < j < |ds| ==> ds[i].name != ds[j].name
  }

  function NamesOf(ds: seq<StateDecl>): seq<string>
  {
    seq(|ds|, i requires 0 <= i < |ds| => ds[i].name)
  }

  /** `self.states[name]`. */
  function Find(ds: seq<StateDecl>, name: string): (r: Option<StateDecl>)
    ensures r.Some? <==> name in NamesOf(ds)
    ensures r.Some? ==> r.value in ds && r.value.name == name
  {
    if |ds| == 0 then None
    else
      assert NamesOf(ds) == [ds[0].name] + NamesOf(ds[1..]);
      if ds[0].name == name then Some(ds[0]) else Find(ds[1..], name)
  }

  /** `_create_states`: a repeated name is a MachineError, otherwise the
      states are kept in declaration order. */
  method CreateStates(decls: seq<StateDecl>) returns (r: Result<seq<StateDecl>>)
    ensures DistinctNames(decls) ==> r == Ok(decls)
    ensures !DistinctNames(decls) ==> r == Err(MachineError)
  {
    var seen: set<string> := {};
    var i := 0;
    while i < |decls|
      invariant 0 <= i <= |decls|
      invariant seen == set k | 0 <= k < i :: decls[k].name
      invariant DistinctNames(decls[..i])
    {
      if decls[i].name in seen {
        var k :| 0 <= k < i && decls[k].name == decls[i].name;
        return Err(MachineError);
      }
      seen := seen + {decls[i].name};
      i := i + 1;
    }
    assert decls[..i] == decls;
    return Ok(decls);
  }

  /* ---------- expanding wildcards and lists ---------- */

  /** `_expand_transitions` rewrites the old states in its first pass and
      the new states in its second. */
  datatype Side = OldSide | NewSide

  function End(t: TransDecl, side: Side): Endpoint
  {
    if side == OldSide then t.oldState else t.newState
  }

  function Other(t: TransDecl, side: Side): Endpoint
  {
    if side == OldSide then t.newState else t.oldState
  }

  function WithEnd(t: TransDecl, side: Side, s: string): TransDecl
  {
    if side == OldSide then t.(oldState := Name(s)) else t.(newState := Name(s))
  }

  function PairOf(t: TransDecl): (Endpoint, Endpoint)
  {
    (t.oldState, t.newState)
  }

  /** `current`: the declared (old, new) pairs at the start of a pass. */
  function Pairs(ts: seq<TransDecl>): seq<(Endpoint, Endpoint)>
  {
    seq(|ts|, i requires 0 <= i < |ts| => PairOf(ts[i]))
  }

  /** A side to expand: the wildcard or a list of names. */
  predicate Wild(t: TransDecl, side: Side)
  {
    End(t, side) == Name("*") || End(t, side).Names?
  }

  /** The names a wild side stands for: every state, or the listed ones. */
  function Candidates(t: TransDecl, side: Side, names: seq<string>): seq<string>
  {
    if End(t, side) == Name("*") then names
    else if End(t, side).Names? then End(t, side).names
    else []
  }

  /** A copy for name `s` is made unless `s` is the other end or the pair
      was already declared. */
  predicate Admits(t: TransDecl, side: Side, s: string, current: seq<(Endpoint, Endpoint)>)
  {
    Name(s) != Other(t, side) && PairOf(WithEnd(t, side, s)) !in current
  }

  /** The copies appended for one wild declaration, in candidate order. */
  function Copies(t: TransDecl, side: Side, cands: seq<string>, current: seq<(Endpoint, Endpoint)>): seq<TransDecl>
  {
    if |cands| == 0 then []
    else
      Copies(t, side, cands[..|cands| - 1], current)
      + (if Admits(t, side, cands[|cands| - 1], current) then [WithEnd(t, side, cands[|cands| - 1])] else [])
  }

  /** The declarations a pass leaves where they are. */
  function Kept(ts: seq<TransDecl>, side: Side): seq<TransDecl>
  {
    if |ts| == 0 then []
    else Kept(ts[..|ts| - 1], side) + (if Wild(ts[|ts| - 1], side) then [] else [ts[|ts| - 1]])
  }

  /** The copies a pass appends, declaration by declaration. */
  function Generated(ts: seq<TransDecl>, side: Side, names: seq<string>, current: seq<(Endpoint, Endpoint)>): seq<TransDecl>
  {
    if |ts| == 0 then []
    else
      Generated(ts[..|ts| - 1], side, names, current)
      + (var t := ts[|ts| - 1];
         if Wild(t, side) then Copies(t, side, Candidates(t, side, names), current) else [])
  }

  /** One pass: the untouched declarations in order, then the copies. */
  function Pass(ts: seq<TransDecl>, side: Side, names: seq<string>): seq<TransDecl>
  {
    Kept(ts, side) + Generated(ts, side, names, Pairs(ts))
  }

  /** Both passes of `_expand_transitions`. */
  function Expanded(ts: seq<TransDecl>, names: seq<string>): seq<TransDecl>
  {
    Pass(Pass(ts, OldSide, names), NewSide, names)
  }

  /** `list.remove(x)`: drops the first element equal to `x`. */
  function RemoveFirst<T(==)>(s: seq<T>, x: T): seq<T>
  {
    if |s| == 0 then [] else if s[0] == x then s[1..] else [s[0]] + RemoveFirst(s[1..], x)
  }

  lemma {:induction false} RemoveFirstAt<T>(a: seq<T>, x: T, b: seq<T>)
    requires x !in a
    ensures RemoveFirst(a + [x] + b, x) == a + b
  {
    if |a| == 0 {
      assert a + [x] + b == [x] + b;
    } else {
      assert (a + [x] + b)[1..] == a[1..] + [x] + b;
      RemoveFirstAt(a[1..], x, b);
      assert a == [a[0]] + a[1..];
    }
  }

  lemma {:induction false} KeptMembers(ts: seq<TransDecl>, side: Side)
    ensures forall u :: u in Kept(ts, side) <==> u in ts && !Wild(u, side)
  {
    if |ts| > 0 {
      KeptMembers(ts[..|ts| - 1], side);
      assert ts == ts[..|ts| - 1] + [ts[|ts| - 1]];
    }
  }

  lemma {:induction false} CopiesMembers(t: TransDecl, side: Side, cands: seq<string>, current: seq<(Endpoint, Endpoint)>)
    ensures forall u :: u in Copies(t, side, cands, current) <==>
      exists s :: s in cands && Admits(t, side, s, current) && u == WithEnd(t, side, s)
  {
    if |cands| > 0 {
      CopiesMembers(t, side, cands[..|cands| - 1], current);
      assert cands == cands[..|cands| - 1] + [cands[|cands| - 1]];
    }
  }

  /** The copies of a pass, characterised without reference to the order. */
  lemma {:induction false} GeneratedMembers(ts: seq<TransDecl>, side: Side, names: seq<string>, current: seq<(Endpoint, Endpoint)>)
    ensures forall u :: u in Generated(ts, side, names, current) <==>
      exists t, s :: t in ts && Wild(t, side) && s in Candidates(t, side, names) &&
                     Admits(t, side, s, current) && u == WithEnd(t, side, s)
  {
    if |ts| > 0 {
      var p, t := ts[..|ts| - 1], ts[|ts| - 1];
      GeneratedMembers(p, side, names, current);
      CopiesMembers(t, side, Candidates(t, side, names), current);
      assert ts == p + [t];
    }
  }

  /** A pass keeps every declaration whose side is a plain name and
      replaces each wild one by a copy for every admitted name: for no
      other declaration and no other name. */
  lemma PassMembers(ts: seq<TransDecl>, side: Side, names: seq<string>)
    ensures forall u :: u in Pass(ts, side, names) <==>
      (u in ts && !Wild(u, side)) ||
      exists t, s :: t in ts && Wild(t, side) && s in Candidates(t, side, names) &&
                     Admits(t, side, s, Pairs(ts)) && u == WithEnd(t, side, s)
  {
    KeptMembers(ts, side);
    GeneratedMembers(ts, side, names, Pairs(ts));
  }

  predicate Named(t: TransDecl)
  {
    t.oldState.Name? && t.newState.Name?
  }

  /** After both passes neither end of any transition is a list, and only
      a declared transition can lead from a state to itself. */
  lemma ExpandedNamed(ts: seq<TransDecl>, names: seq<string>)
    ensures forall u :: u in Expanded(ts, names) ==> Named(u) && (u in ts || u.oldState != u.newState)
  {
    var p := Pass(ts, OldSide, names);
    PassMembers(ts, OldSide, names);
    PassMembers(p, NewSide, names);
    assert forall u :: u in p ==> u.oldState.Name? && (u in ts || u.oldState != u.newState);
  }

  lemma CopiesStep(t: TransDecl, side: Side, cands: seq<string>, j: nat, current: seq<(Endpoint, Endpoint)>)
    requires j < |cands|
    ensures Copies(t, side, cands[..j + 1], current) ==
      Copies(t, side, cands[..j], current) + (if Admits(t, side, cands[j], current) then [WithEnd(t, side, cands[j])] else [])
  {
    assert cands[..j + 1][..j] == cands[..j];
  }

  /** Removing a wild declaration after appending its copies moves the
      pass on by one declaration. */
  lemma PassStepWild(snapshot: seq<TransDecl>, i: nat, side: Side, names: seq<string>,
                     current: seq<(Endpoint, Endpoint)>, ts: seq<TransDecl>)
    requires i < |snapshot| && Wild(snapshot[i], side)
    requires ts == Kept(snapshot[..i], side) + snapshot[i..] + Generated(snapshot[..i], side, names, current)
                   + Copies(snapshot[i], side, Candidates(snapshot[i], side, names), current)
    ensures RemoveFirst(ts, snapshot[i]) ==
      Kept(snapshot[..i + 1], side) + snapshot[i + 1..] + Generated(snapshot[..i + 1], side, names, current)
  {
    var t, p, q := snapshot[i], snapshot[..i], snapshot[..i + 1];
    assert q[..i] == p;
    var k, g, c, rest := Kept(p, side), Generated(p, side, names, current),
                         Copies(t, side, Candidates(t, side, names), current), snapshot[i + 1..];
    assert Kept(q, side) == k;
    assert Generated(q, side, names, current) == g + c;
    assert snapshot[i..] == [t] + rest;
    assert t !in k by {
      KeptMembers(p, side);
    }
    RemoveFirstMoved(k, t, rest, g, c);
  }

  /** The rearrangement behind `PassStepWild`, on plain sequences. */
  lemma RemoveFirstMoved<T>(k: seq<T>, t: T, rest: seq<T>, g: seq<T>, c: seq<T>)
    requires t !in k
    ensures RemoveFirst(k + ([t] + rest) + g + c, t) == k + rest + (g + c)
  {
    assert k + ([t] + rest) + g + c == k + [t] + (rest + (g + c));
    RemoveFirstAt(k, t, rest + (g + c));
  }

  lemma PassStepTame(snapshot: seq<TransDecl>, i: nat, side: Side, names: seq<string>, current: seq<(Endpoint, Endpoint)>)
    requires i < |snapshot| && !Wild(snapshot[i], side)
    ensures Kept(snapshot[..i], side) + snapshot[i..] + Generated(snapshot[..i], side, names, current) ==
      Kept(snapshot[..i + 1], side) + snapshot[i + 1..] + Generated(snapshot[..i + 1], side, names, current)
  {
    assert snapshot[..i + 1][..i] == snapshot[..i];
    assert snapshot[i..] == [snapshot[i]] + snapshot[i + 1..];
  }

  /** The inner loop of a pass: one copy per admitted candidate name. */
  method AppendCopies(ts0: seq<TransDecl>, t: TransDecl, side: Side, cands: seq<string>,
                      current: seq<(Endpoint, Endpoint)>) returns (ts: seq<TransDecl>)
    ensures ts == ts0 + Copies(t, side, cands, current)
  {
    ts := ts0;
    var j := 0;
    while j < |cands|
      invariant 0 <= j <= |cands|
      invariant ts == ts0 + Copies(t, side, cands[..j], current)
    {
      CopiesStep(t, side, cands, j, current);
      if Name(cands[j]) != Other(t, side) && PairOf(WithEnd(t, side, cands[j])) !in current {
        ts := ts + [WithEnd(t, side, cands[j])];
      }
      j := j + 1;
    }
    assert cands[..j] == cands;
  }

  /** One pass as the source runs it: iterate over a copy of the list,
      append the copies of each wild declaration, then remove it. */
  method ExpandPass(transitions: seq<TransDecl>, side: Side, names: seq<string>) returns (ts: seq<TransDecl>)
    ensures ts == Pass(transitions, side, names)
  {
    var current := Pairs(transitions);
    var snapshot := transitions;
    ts := transitions;
    var i := 0;
    while i < |snapshot|
      invariant 0 <= i <= |snapshot|
      invariant ts == Kept(snapshot[..i], side) + snapshot[i..] + Generated(snapshot[..i], side, names, current)
    {
      var t := snapshot[i];
      if Wild(t, side) {
        ts := AppendCopies(ts, t, side, Candidates(t, side, names), current);
        PassStepWild(snapshot, i, side, names, current, ts);
        ts := RemoveFirst(ts, t);
      } else {
        PassStepTame(snapshot, i, side, names, current);
      }
      i := i + 1;
    }
    assert snapshot[..i] == snapshot;
    assert snapshot[i..] == [];
  }

  /** `_expand_transitions`. */
  method ExpandTransitions(transitions: seq<TransDecl>, names: seq<string>) returns (ts: seq<TransDecl>)
    ensures ts == Expanded(transitions, names)
    ensures AllNamed(ts) && forall u :: u in ts ==> u in transitions || u.oldState != u.newState
  {
    var once := ExpandPass(transitions, OldSide, names);
    ts := ExpandPass(once, NewSide, names);
    ExpandedNamed(transitions, names);
  }

  /* ---------- expansion of a wildcard on both ends ---------- */

  function AnyToAny(): TransDecl { TransDecl(Name("*"), Name("*"), [], [], None) }
  function Between(a: string, b: string): TransDecl { TransDecl(Name(a), Name(b), [], [], None) }
  function FromTo(a: string): TransDecl { TransDecl(Name(a), Name("*"), [], [], None) }

  /** Three distinct state names, none of them the wildcard. */
  predicate ThreeStates(a: string, b: string, c: string)
  {
    a != b && b != c && a != c && a != "*" && b != "*" && c != "*"
  }

  /** The first pass turns `*` → `*` into one `s` → `*` per state. */
  lemma AnyToAnyFirstPass(a: string, b: string, c: string)
    requires ThreeStates(a, b, c)
    ensures Pass([AnyToAny()], OldSide, [a, b, c]) == [FromTo(a), FromTo(b), FromTo(c)]
  {
    var names, t := [a, b, c], AnyToAny();
    var cur := Pairs([t]);
    assert cur == [(Name("*"), Name("*"))];
    assert names[..1] == [a] && names[..2] == [a, b] && names[..3] == names;
    assert names[..2][..1] == [a] && [a][..0] == [];
    forall x | x in names
      ensures Admits(t, OldSide, x, cur) && WithEnd(t, OldSide, x) == FromTo(x)
    {
      assert PairOf(WithEnd(t, OldSide, x)).0 == Name(x);
    }
    assert Copies(t, OldSide, [], cur) == [];
    assert Copies(t, OldSide, [a], cur) == [FromTo(a)];
    assert Copies(t, OldSide, [a, b], cur) == [FromTo(a), FromTo(b)];
    assert Copies(t, OldSide, names, cur) == [FromTo(a), FromTo(b), FromTo(c)];
    assert [t][..0] == [];
    assert Kept([t], OldSide) == [];
    assert Generated([t], OldSide, names, cur) == Copies(t, OldSide, names, cur);
  }

  /** The copy of `s` → `*` for target `x`, made unless `x` is `s`. */
  function CopyTo(s: string, x: string): seq<TransDecl>
  {
    if s == x then [] else [Between(s, x)]
  }

  lemma FromToCopiesOf(s: string, a: string, b: string, c: string, cur: seq<(Endpoint, Endpoint)>)
    requires ThreeStates(a, b, c) && s != "*"
    requires cur == [(Name(a), Name("*")), (Name(b), Name("*")), (Name(c), Name("*"))]
    ensures Copies(FromTo(s), NewSide, [a, b, c], cur) == CopyTo(s, a) + CopyTo(s, b) + CopyTo(s, c)
  {
    var t, names := FromTo(s), [a, b, c];
    assert names[..2] == [a, b] && [a, b][..1] == [a] && [a][..0] == [];
    forall x | x in names
      ensures PairOf(WithEnd(t, NewSide, x)) !in cur
    {
      assert PairOf(WithEnd(t, NewSide, x)).1 == Name(x);
    }
    assert Copies(t, NewSide, [a], cur) == CopyTo(s, a);
    assert Copies(t, NewSide, [a, b], cur) == CopyTo(s, a) + CopyTo(s, b);
  }

  /** The second pass gives each `s` → `*` a copy per other state. */
  lemma FromToCopies(a: string, b: string, c: string, cur: seq<(Endpoint, Endpoint)>)
    requires ThreeStates(a, b, c)
    requires cur == [(Name(a), Name("*")), (Name(b), Name("*")), (Name(c), Name("*"))]
    ensures Copies(FromTo(a), NewSide, [a, b, c], cur) == [Between(a, b), Between(a, c)]
    ensures Copies(FromTo(b), NewSide, [a, b, c], cur) == [Between(b, a), Between(b, c)]
    ensures Copies(FromTo(c), NewSide, [a, b, c], cur) == [Between(c, a), Between(c, b)]
  {
    FromToCopiesOf(a, a, b, c, cur);
    FromToCopiesOf(b, a, b, c, cur);
    FromToCopiesOf(c, a, b, c, cur);
  }

  lemma FromToSecondPass(a: string, b: string, c: string)
    requires ThreeStates(a, b, c)
    ensures Pass([FromTo(a), FromTo(b), FromTo(c)], NewSide, [a, b, c]) ==
      [Between(a, b), Between(a, c), Between(b, a), Between(b, c), Between(c, a), Between(c, b)]
  {
    var names := [a, b, c];
    var p := [FromTo(a), FromTo(b), FromTo(c)];
    var cur := Pairs(p);
    assert cur == [(Name(a), Name("*")), (Name(b), Name("*")), (Name(c), Name("*"))];
    FromToCopies(a, b, c, cur);
    assert p[..1] == [FromTo(a)] && p[..2] == [FromTo(a), FromTo(b)] && p[..3] == p && p[..1][..0] == [];
    assert Kept(p[..1], NewSide) == [];
    assert Kept(p[..2], NewSide) == [];
    assert Kept(p, NewSide) == [];
    assert Generated(p[..1], NewSide, names, cur) == [Between(a, b), Between(a, c)];
    assert Generated(p[..2], NewSide, names, cur) == [Between(a, b), Between(a, c), Between(b, a), Between(b, c)];
  }

  /** A transition from any state to any state over three states becomes
      the six transitions between two different states, in state order. */
  lemma WildcardBothEnds(a: string, b: string, c: string)
    requires ThreeStates(a, b, c)
    ensures Expanded([AnyToAny()], [a, b, c]) ==
      [Between(a, b), Between(a, c), Between(b, a), Between(b, c), Between(c, a), Between(c, b)]
  {
    AnyToAnyFirstPass(a, b, c);
    FromToSecondPass(a, b, c);
  }

  /* ---------- filling a dict without repeated keys ---------- */

  predicate DistinctKeys<K(==), V>(kvs: seq<(K, V)>)
  {
    forall i, j :: 0 <= i < j < |kvs| ==> kvs[i].0 != kvs[j].0
  }

  /** Filling a dict from key-value rows in order, raising MachineError
      at the first key that is already present. */
  function Fill<K(==), V>(kvs: seq<(K, V)>): (r: Result<map<K, V>>)
    ensures r.Err? ==> r.error == MachineError
  {
    if |kvs| == 0 then Ok(map[])
    else
      var d :- Fill(kvs[..|kvs| - 1]);
      var kv := kvs[|kvs| - 1];
      if kv.0 in d then Err(MachineError) else Ok(d[kv.0 := kv.1])
  }

  /** Fill succeeds exactly when no key repeats, and then holds every row
      and nothing else. */
  lemma {:induction false} FillLaws<K, V>(kvs: seq<(K, V)>)
    ensures Fill(kvs).Ok? <==> DistinctKeys(kvs)
    ensures Fill(kvs).Ok? ==>
      (forall k :: k in Fill(kvs).value <==> exists i :: 0 <= i < |kvs| && kvs[i].0 == k) &&
      (forall i :: 0 <= i < |kvs| ==> Fill(kvs).value[kvs[i].0] == kvs[i].1)
  {
    if |kvs| > 0 {
      var p, kv := kvs[..|kvs| - 1], kvs[|kvs| - 1];
      FillLaws(p);
      assert forall i :: 0 <= i < |p| ==> kvs[i] == p[i];
      if Fill(p).Ok? {
        var d := Fill(p).value;
        assert kv.0 in d <==> exists i :: 0 <= i < |p| && p[i].0 == kv.0;
      }
      if DistinctKeys(kvs) {
        assert DistinctKeys(p);
      }
    }
  }

  lemma {:induction false} FillFailEarly<K, V>(a: seq<(K, V)>, b: seq<(K, V)>)
    requires Fill(a).Err?
    ensures Fill(a + b) == Fill(a)
  {
    if |b| > 0 {
      var ab := a + b;
      assert ab[..|ab| - 1] == a + b[..|b| - 1];
      FillFailEarly(a, b[..|b| - 1]);
    } else {
      assert a + b == a;
    }
  }

  /** A failure on the leading rows is the failure of all of them. */
  lemma FillFailPrefix<K, V>(pre: seq<(K, V)>, all: seq<(K, V)>)
    requires pre <= all && Fill(pre).Err?
    ensures Fill(all) == Err(MachineError)
  {
    assert all == pre + all[|pre|..];
    FillFailEarly(pre, all[|pre|..]);
  }

  lemma FillStep<K, V>(a: seq<(K, V)>, x: (K, V), d: map<K, V>)
    requires Fill(a) == Ok(d)
    ensures x.0 !in d ==> Fill(a + [x]) == Ok(d[x.0 := x.1])
    ensures x.0 in d ==> Fill(a + [x]) == Err(MachineError)
  {
    assert (a + [x])[..|a|] == a;
  }

  /* ---------- the transition dict ---------- */

  predicate AllNamed(es: seq<TransDecl>)
  {
    forall i :: 0 <= i < |es| ==> Named(es[i])
  }

  function Key(t: TransDecl): (string, string)
    requires Named(t)
  {
    (t.oldState.name, t.newState.name)
  }

  /** Both ends of the transition name declared states. */
  predicate KnownDecl(states: seq<StateDecl>, t: TransDecl)
  {
    Named(t) && t.oldState.name in NamesOf(states) && t.newState.name in NamesOf(states)
  }

  predicate Known(states: seq<StateDecl>, es: seq<TransDecl>)
  {
    forall i :: 0 <= i < |es| ==> KnownDecl(states, es[i])
  }

  function Made(states: seq<StateDecl>, t: TransDecl): (r: FlatTrans)
    requires KnownDecl(states, t)
    ensures r.source.name == t.oldState.name && r.target.name == t.newState.name
    ensures r.source in states && r.target in states
  {
    FlatTrans(Find(states, t.oldState.name).value, Find(states, t.newState.name).value, t.onTransfer, t.condition)
  }

  function TransRows(states: seq<StateDecl>, es: seq<TransDecl>): seq<((string, string), FlatTrans)>
    requires Known(states, es)
  {
    seq(|es|, i requires 0 <= i < |es| => (Key(es[i]), Made(states, es[i])))
  }

  /** The dict `_create_transitions` builds from the expanded list. */
  function TransitionDict(states: seq<StateDecl>, es: seq<TransDecl>): Result<map<(string, string), FlatTrans>>
  {
    if Known(states, es) then Fill(TransRows(states, es)) else Err(MachineError)
  }

  /** The transition dict exists exactly when every end is a declared state
      and no (old, new) pair repeats; it then maps each pair to the
      transition between those two states, and holds no other pair. */
  lemma TransitionDictLaws(states: seq<StateDecl>, es: seq<TransDecl>)
    ensures TransitionDict(states, es).Ok? <==>
      Known(states, es) && forall i, j :: 0 <= i < j < |es| ==> PairOf(es[i]) != PairOf(es[j])
    ensures TransitionDict(states, es).Ok? ==>
      var d := TransitionDict(states, es).value;
      (forall k :: k in d ==> exists i :: 0 <= i < |es| && Named(es[i]) && Key(es[i]) == k) &&
      (forall i :: 0 <= i < |es| ==> Named(es[i]) && Key(es[i]) in d && d[Key(es[i])] == Made(states, es[i]))
  {
    if Known(states, es) {
      FillLaws(TransRows(states, es));
      TransRowsKeys(states, es);
      if TransitionDict(states, es).Ok? {
        TransitionDictContents(states, es);
      }
    }
  }

  lemma TransitionDictContents(states: seq<StateDecl>, es: seq<TransDecl>)
    requires Known(states, es) && Fill(TransRows(states, es)).Ok?
    ensures var d := Fill(TransRows(states, es)).value;
      (forall k :: k in d ==> exists i :: 0 <= i < |es| && Named(es[i]) && Key(es[i]) == k) &&
      (forall i :: 0 <= i < |es| ==> Named(es[i]) && Key(es[i]) in d && d[Key(es[i])] == Made(states, es[i]))
  {
    var rows := TransRows(states, es);
    var d := Fill(rows).value;
    FillLaws(rows);
    forall k | k in d
      ensures exists i :: 0 <= i < |es| && Named(es[i]) && Key(es[i]) == k
    {
      var i :| 0 <= i < |rows| && rows[i].0 == k;
      assert KnownDecl(states, es[i]);
    }
    forall i | 0 <= i < |es|
      ensures Named(es[i]) && Key(es[i]) in d && d[Key(es[i])] == Made(states, es[i])
    {
      assert rows[i] == (Key(es[i]), Made(states, es[i]));
    }
  }

  /** The rows repeat a key exactly when the transitions repeat a pair. */
  lemma TransRowsKeys(states: seq<StateDecl>, es: seq<TransDecl>)
    requires Known(states, es)
    ensures DistinctKeys(TransRows(states, es)) <==> forall i, j :: 0 <= i < j < |es| ==> PairOf(es[i]) != PairOf(es[j])
  {
    var rows := TransRows(states, es);
    assert forall i :: 0 <= i < |es| ==> rows[i].0 == Key(es[i]) == (es[i].oldState.name, es[i].newState.name);
  }

  lemma KnownStep(states: seq<StateDecl>, es: seq<TransDecl>, i: nat)
    requires i < |es| && Known(states, es[..i]) && KnownDecl(states, es[i])
    ensures Known(states, es[..i + 1])
  {
    var p, q := es[..i], es[..i + 1];
    forall k | 0 <= k < |q| ensures KnownDecl(states, q[k]) {
      if k < i { assert q[k] == p[k]; }
    }
  }

  lemma TransRowsStep(states: seq<StateDecl>, es: seq<TransDecl>, i: nat)
    requires i < |es| && Known(states, es[..i + 1])
    ensures Known(states, es[..i]) && KnownDecl(states, es[i])
    ensures TransRows(states, es[..i + 1]) == TransRows(states, es[..i]) + [(Key(es[i]), Made(states, es[i]))]
  {
    var p, q := es[..i], es[..i + 1];
    assert forall k :: 0 <= k < i ==> q[k] == p[k];
    assert q[i] == es[i];
    var rp, rq := TransRows(states, p), TransRows(states, q);
    assert forall k :: 0 <= k < i ==> rq[k] == rp[k];
  }

  lemma TransStep(states: seq<StateDecl>, es: seq<TransDecl>, i: nat, d: map<(string, string), FlatTrans>)
    requires i < |es| && Known(states, es[..i]) && KnownDecl(states, es[i])
    requires Fill(TransRows(states, es[..i])) == Ok(d) && Key(es[i]) !in d
    ensures Known(states, es[..i + 1])
    ensures Fill(TransRows(states, es[..i + 1])) == Ok(d[Key(es[i]) := Made(states, es[i])])
  {
    KnownStep(states, es, i);
    TransRowsStep(states, es, i);
    FillStep(TransRows(states, es[..i]), (Key(es[i]), Made(states, es[i])), d);
  }

  /** The rows of the first `n` transitions lead the rows of all. */
  lemma TransRowsPrefix(states: seq<StateDecl>, es: seq<TransDecl>, n: nat)
    requires n <= |es| && Known(states, es)
    ensures Known(states, es[..n]) && TransRows(states, es[..n]) <= TransRows(states, es)
  {
    var p := es[..n];
    assert forall k :: 0 <= k < n ==> p[k] == es[k];
  }

  lemma TransRepeated(states: seq<StateDecl>, es: seq<TransDecl>, i: nat, d: map<(string, string), FlatTrans>)
    requires i < |es| && Known(states, es[..i]) && Named(es[i])
    requires Fill(TransRows(states, es[..i])) == Ok(d) && Key(es[i]) in d
    ensures TransitionDict(states, es) == Err(MachineError)
  {
    if Known(states, es) {
      TransRowsPrefix(states, es, i + 1);
      TransRowsStep(states, es, i);
      FillStep(TransRows(states, es[..i]), (Key(es[i]), Made(states, es[i])), d);
      FillFailPrefix(TransRows(states, es[..i + 1]), TransRows(states, es));
    }
  }


  /** `_create_transitions`: expands the caller's list in place, then
      builds the dict; the expanded list is returned as well, because the
      trigger dict is built from it. */
  method CreateTransitions(states: seq<StateDecl>, transitions: seq<TransDecl>)
    returns (expanded: seq<TransDecl>, r: Result<map<(string, string), FlatTrans>>)
    ensures expanded == Expanded(transitions, NamesOf(states))
    ensures AllNamed(expanded)
    ensures r == TransitionDict(states, expanded)
  {
    expanded := ExpandTransitions(transitions, NamesOf(states));
    var d: map<(string, string), FlatTrans> := map[];
    var i := 0;
    while i < |expanded|
      invariant 0 <= i <= |expanded|
      invariant Known(states, expanded[..i])
      invariant Fill(TransRows(states, expanded[..i])) == Ok(d)
    {
      var t := expanded[i];
      var k := (t.oldState.name, t.newState.name);
      if k in d {
        TransRepeated(states, expanded, i, d);
        return expanded, Err(MachineError);
      }
      var o := Find(states, t.oldState.name);
      var n := Find(states, t.newState.name);
      if o.None? || n.None? {
        assert !KnownDecl(states, expanded[i]);
        return expanded, Err(MachineError);
      }
      TransStep(states, expanded, i, d);
      d := d[k := FlatTrans(o.value, n.value, t.onTransfer, t.condition)];
      i := i + 1;
    }
    assert expanded[..i] == expanded;
    r := Ok(d);
  }

  /* ---------- the trigger dict ---------- */

  /** One row per trigger name of a transition: (old state, trigger) to
      the transition's key. */
  function TriggerRowsOf(t: TransDecl): seq<((string, string), (string, string))>
    requires Named(t)
  {
    seq(|t.triggers|, j requires 0 <= j < |t.triggers| => ((t.oldState.name, t.triggers[j]), Key(t)))
  }

  function TriggerRows(es: seq<TransDecl>): seq<((string, string), (string, string))>
    requires AllNamed(es)
  {
    if |es| == 0 then [] else TriggerRows(es[..|es| - 1]) + TriggerRowsOf(es[|es| - 1])
  }

  lemma TriggerRowsStep(es: seq<TransDecl>, i: nat)
    requires i < |es| && AllNamed(es)
    ensures TriggerRows(es[..i + 1]) == TriggerRows(es[..i]) + TriggerRowsOf(es[i])
  {
    assert es[..i + 1][..i] == es[..i];
  }

  /** The rows of the first `n` transitions lead the rows of all. */
  lemma {:induction false} TriggerRowsPrefix(es: seq<TransDecl>, n: nat)
    requires n <= |es| && AllNamed(es)
    ensures TriggerRows(es[..n]) <= TriggerRows(es)
    decreases |es| - n
  {
    if n < |es| {
      var p := es[..|es| - 1];
      assert p[..n] == es[..n];
      TriggerRowsPrefix(p, n);
    } else {
      assert es[..n] == es;
    }
  }

  /** Every trigger name of every transition has its row. */
  lemma {:induction false} TriggerRowsHave(es: seq<TransDecl>)
    requires AllNamed(es)
    ensures forall i, j :: 0 <= i < |es| && 0 <= j < |es[i].triggers| ==>
      ((es[i].oldState.name, es[i].triggers[j]), Key(es[i])) in TriggerRows(es)
  {
    if |es| > 0 {
      var p := es[..|es| - 1];
      TriggerRowsHave(p);
      forall i, j | 0 <= i < |es| && 0 <= j < |es[i].triggers|
        ensures ((es[i].oldState.name, es[i].triggers[j]), Key(es[i])) in TriggerRows(es)
      {
        if i < |p| {
          assert es[i] == p[i];
        } else {
          assert TriggerRowsOf(es[i])[j] == ((es[i].oldState.name, es[i].triggers[j]), Key(es[i]));
        }
      }
    }
  }

  /** Every row belongs to a trigger name of some transition. */
  lemma {:induction false} TriggerRowsFrom(es: seq<TransDecl>)
    requires AllNamed(es)
    ensures forall row :: row in TriggerRows(es) ==>
      exists i :: 0 <= i < |es| && Named(es[i]) && row.1 == Key(es[i]) &&
                  row.0.0 == es[i].oldState.name && row.0.1 in es[i].triggers
  {
    if |es| > 0 {
      var p := es[..|es| - 1];
      TriggerRowsFrom(p);
      forall row | row in TriggerRows(es)
        ensures exists i :: 0 <= i < |es| && Named(es[i]) && row.1 == Key(es[i]) &&
                            row.0.0 == es[i].oldState.name && row.0.1 in es[i].triggers
      {
        if row in TriggerRows(p) {
          var i :| 0 <= i < |p| && Named(p[i]) && row.1 == Key(p[i]) && row.0.0 == p[i].oldState.name && row.0.1 in p[i].triggers;
          assert p[i] == es[i];
        } else {
          assert row in TriggerRowsOf(es[|es| - 1]);
        }
      }
    }
  }

  /** One trigger name further: either the dict grows by its row, or the
      name repeats a key and the whole fill fails. */
  lemma TriggerStep(es: seq<TransDecl>, i: nat, j: nat, d: map<(string, string), (string, string)>)
    requires i < |es| && AllNamed(es) && j < |es[i].triggers|
    requires Fill(TriggerRows(es[..i]) + TriggerRowsOf(es[i])[..j]) == Ok(d)
    ensures var key := (es[i].oldState.name, es[i].triggers[j]);
      (key !in d ==> Fill(TriggerRows(es[..i]) + TriggerRowsOf(es[i])[..j + 1]) == Ok(d[key := Key(es[i])])) &&
      (key in d ==> Fill(TriggerRows(es)) == Err(MachineError))
  {
    var done, rows := TriggerRows(es[..i]), TriggerRowsOf(es[i]);
    assert rows[j] == ((es[i].oldState.name, es[i].triggers[j]), Key(es[i]));
    assert done + rows[..j + 1] == (done + rows[..j]) + [rows[j]];
    FillStep(done + rows[..j], rows[j], d);
    if rows[j].0 in d {
      TriggerRepeated(es, i, j);
    }
  }

  lemma TriggerRepeated(es: seq<TransDecl>, i: nat, j: nat)
    requires i < |es| && AllNamed(es) && j < |es[i].triggers|
    requires Fill(TriggerRows(es[..i]) + TriggerRowsOf(es[i])[..j + 1]).Err?
    ensures Fill(TriggerRows(es)) == Err(MachineError)
  {
    var done, rows := TriggerRows(es[..i]), TriggerRowsOf(es[i]);
    TriggerRowsStep(es, i);
    TriggerRowsPrefix(es, i + 1);
    assert done + rows[..j + 1] <= done + rows by {
      assert rows[..j + 1] <= rows;
    }
    FillFailPrefix(done + rows[..j + 1], TriggerRows(es));
  }


  /** `_create_trigger_dict`: a nested loop over the expanded transitions
      and their trigger names. */
  method CreateTriggerDict(es: seq<TransDecl>) returns (r: Result<map<(string, string), (string, string)>>)
    requires AllNamed(es)
    ensures r == Fill(TriggerRows(es))
  {
    var d: map<(string, string), (string, string)> := map[];
    var i := 0;
    while i < |es|
      invariant 0 <= i <= |es|
      invariant Fill(TriggerRows(es[..i])) == Ok(d)
    {
      var t := es[i];
      var rows := TriggerRowsOf(t);
      ghost var done := TriggerRows(es[..i]);
      assert done + rows[..0] == done;
      var j := 0;
      while j < |t.triggers|
        invariant 0 <= j <= |t.triggers|
        invariant Fill(done + rows[..j]) == Ok(d)
      {
        var key := (t.oldState.name, t.triggers[j]);
        TriggerStep(es, i, j, d);
        if key in d {
          return Err(MachineError);
        }
        d := d[key := (t.oldState.name, t.newState.name)];
        j := j + 1;
      }
      assert rows[..j] == rows;
      TriggerRowsStep(es, i);
      i := i + 1;
    }
    assert es[..i] == es;
    r := Ok(d);
  }

  /** The trigger dict exists exactly when no (old state, trigger name)
      repeats, and then maps each to the key of its transition, and holds
      nothing else. */
  lemma TriggerDictLaws(es: seq<TransDecl>)
    requires AllNamed(es)
    ensures Fill(TriggerRows(es)).Ok? <==> DistinctKeys(TriggerRows(es))
    ensures Fill(TriggerRows(es)).Ok? ==>
      var d := Fill(TriggerRows(es)).value;
      (forall i, j :: 0 <= i < |es| && 0 <= j < |es[i].triggers| ==>
        (es[i].oldState.name, es[i].triggers[j]) in d && d[(es[i].oldState.name, es[i].triggers[j])] == Key(es[i])) &&
      (forall k :: k in d ==> exists i :: 0 <= i < |es| && Named(es[i]) && d[k] == Key(es[i]) &&
                                          k.0 == es[i].oldState.name && k.1 in es[i].triggers)
  {
    var rows := TriggerRows(es);
    FillLaws(rows);
    TriggerRowsHave(es);
    TriggerRowsFrom(es);
    if Fill(rows).Ok? {
      var d := Fill(rows).value;
      forall k | k in d
        ensures exists i :: 0 <= i < |es| && Named(es[i]) && d[k] == Key(es[i]) &&
                            k.0 == es[i].oldState.name && k.1 in es[i].triggers
      {
        var n :| 0 <= n < |rows| && rows[n].0 == k;
        assert rows[n] in rows;
      }
      forall i, j | 0 <= i < |es| && 0 <= j < |es[i].triggers|
        ensures (es[i].oldState.name, es[i].triggers[j]) in d && d[(es[i].oldState.name, es[i].triggers[j])] == Key(es[i])
      {
        var row := ((es[i].oldState.name, es[i].triggers[j]), Key(es[i]));
        var n :| 0 <= n < |rows| && rows[n] == row;
      }
    }
  }

  /* ---------- the machine ---------- */

  /** What the construction guarantees: unique state names, every
      transition joins the two states its key names, and every trigger
      refers to a transition leaving the state in its key. */
  predicate Consistent(m: Machine)
  {
    DistinctNames(m.states) &&
    (forall k :: k in m.transitions ==>
       m.transitions[k].source.name == k.0 && m.transitions[k].target.name == k.1 &&
       m.transitions[k].source in m.states && m.transitions[k].target in m.states) &&
    (forall k :: k in m.triggers ==> m.triggers[k] in m.transitions && m.triggers[k].0 == k.0)
  }

  lemma BuiltConsistent(name: string, states: seq<StateDecl>, es: seq<TransDecl>,
                        d: map<(string, string), FlatTrans>, td: map<(string, string), (string, string)>,
                        beforeAnyExit: seq<Callback>, afterAnyEntry: seq<Callback>)
    requires DistinctNames(states) && AllNamed(es)
    requires TransitionDict(states, es) == Ok(d) && Fill(TriggerRows(es)) == Ok(td)
    ensures Consistent(Machine(name, states, d, td, beforeAnyExit, afterAnyEntry))
  {
    TransitionDictLaws(states, es);
    TriggerDictLaws(es);
    forall k | k in td
      ensures td[k] in d && td[k].0 == k.0
    {
      var i :| 0 <= i < |es| && Named(es[i]) && td[k] == Key(es[i]) && k.0 == es[i].oldState.name && k.1 in es[i].triggers;
    }
    forall k | k in d
      ensures d[k].source.name == k.0 && d[k].target.name == k.1 && d[k].source in states && d[k].target in states
    {
      var i :| 0 <= i < |es| && Named(es[i]) && Key(es[i]) == k;
    }
  }

  /** `StateMachine.__init__`: states, then transitions, then triggers;
      each step can fail with MachineError. */
  method NewMachine(name: string, states: seq<StateDecl>, transitions: seq<TransDecl>,
                    beforeAnyExit: seq<Callback>, afterAnyEntry: seq<Callback>) returns (r: Result<Machine>)
    ensures r.Err? ==> r.error == MachineError
    ensures r.Ok? <==>
      var es := Expanded(transitions, NamesOf(states));
      DistinctNames(states) && Known(states, es) &&
      (forall i, j :: 0 <= i < j < |es| ==> PairOf(es[i]) != PairOf(es[j])) &&
      DistinctKeys(TriggerRows(es))
    ensures r.Ok? ==>
      Consistent(r.value) && r.value.states == states &&
      r.value.beforeAnyExit == beforeAnyExit && r.value.afterAnyEntry == afterAnyEntry
  {
    var created := CreateStates(states);
    if created.Err? {
      return Err(MachineError);
    }
    var es, dict := CreateTransitions(states, transitions);
    TransitionDictLaws(states, es);
    if dict.Err? {
      return Err(MachineError);
    }
    var triggers := CreateTriggerDict(es);
    TriggerDictLaws(es);
    if triggers.Err? {
      return Err(MachineError);
    }
    BuiltConsistent(name, states, es, dict.value, triggers.value, beforeAnyExit, afterAnyEntry);
    r := Ok(Machine(name, created.value, dict.value, triggers.value, beforeAnyExit, afterAnyEntry));
  }

  /* ---------- running a transition ---------- */

  /** Which callback slot an event comes from. */
  datatype Hook = ConditionHook | BeforeAnyExitHook | ExitHook | TransferHook | EntryHook | AfterAnyEntryHook

  /** A callback that ran, or the object's `_change_state`. */
  datatype FlatEvent = Called(hook: Hook, cb: Callback) | Changed(state: string)

  /** The events of a callbackified list: its first callback, if any. */
  function FirstCall(hook: Hook, cbs: seq<Callback>): seq<FlatEvent>
  {
    if |cbs| == 0 then [] else [Called(hook, cbs[0])]
  }

  /** The condition as written: the default `lambda obj, o, n: True` is
      called with the object alone, which raises TypeError; a given list
      yields its first callback's result, and None (false) when empty. */
  function ConditionAsWritten(condition: Option<seq<Callback>>, outcome: Callback -> bool): (r: Result<bool>)
  {
    match condition
    case None => Err(TypeError)
    case Some(cbs) => Ok(|cbs| > 0 && outcome(cbs[0]))
  }

  /** The condition as intended: the default one holds. */
  function Holds(condition: Option<seq<Callback>>, outcome: Callback -> bool): (r: bool)
    ensures condition.None? ==> r
    ensures condition.Some? ==> ConditionAsWritten(condition, outcome) == Ok(r)
    ensures condition == Some([]) ==> !r
  {
    match condition
    case None => true
    case Some(cbs) => |cbs| > 0 && outcome(cbs[0])
  }

  /** The default condition cannot be evaluated as written. */
  lemma DefaultConditionRaises(outcome: Callback -> bool)
    ensures ConditionAsWritten(None, outcome) == Err(TypeError)
    ensures Holds(None, outcome)
  {
  }

  function ConditionEvents(condition: Option<seq<Callback>>): seq<FlatEvent>
  {
    if condition.Some? then FirstCall(ConditionHook, condition.value) else []
  }

  /** The events of a transition that takes place. */
  function Fired(m: Machine, t: FlatTrans): seq<FlatEvent>
  {
    FirstCall(BeforeAnyExitHook, m.beforeAnyExit) + FirstCall(ExitHook, t.source.onExit)
    + FirstCall(TransferHook, t.onTransfer) + [Changed(t.target.name)]
    + FirstCall(EntryHook, t.target.onEntry) + FirstCall(AfterAnyEntryHook, m.afterAnyEntry)
  }

  predicate ExitSide(h: Hook)
  {
    h == BeforeAnyExitHook || h == ExitHook || h == TransferHook
  }

  predicate EntrySide(h: Hook)
  {
    h == EntryHook || h == AfterAnyEntryHook
  }

  /** When a transition takes place the state changes exactly once: every
      event before the change is a hook that leaves the old state (the
      machine's before-any-exit, the state's exit, the transfer) and every
      event after it a hook that enters the new one (the state's entry, the
      machine's after-any-entry). */
  lemma FiredOrder(m: Machine, t: FlatTrans)
    ensures exists c ::
      0 <= c < |Fired(m, t)| && Fired(m, t)[c] == Changed(t.target.name) &&
      (forall i :: 0 <= i < c ==> Fired(m, t)[i].Called? && ExitSide(Fired(m, t)[i].hook)) &&
      (forall i :: c < i < |Fired(m, t)| ==> Fired(m, t)[i].Called? && EntrySide(Fired(m, t)[i].hook))
  {
    var a, b, x := FirstCall(BeforeAnyExitHook, m.beforeAnyExit), FirstCall(ExitHook, t.source.onExit), FirstCall(TransferHook, t.onTransfer);
    var e, z := FirstCall(EntryHook, t.target.onEntry), FirstCall(AfterAnyEntryHook, m.afterAnyEntry);
    var f, before, after := Fired(m, t), a + b + x, e + z;
    var c := |before|;
    assert f == before + [Changed(t.target.name)] + after;
    assert f[c] == Changed(t.target.name);
    forall i | 0 <= i < c
      ensures f[i].Called? && ExitSide(f[i].hook)
    {
      assert f[i] == before[i];
    }
    forall i | c < i < |f|
      ensures f[i].Called? && EntrySide(f[i].hook)
    {
      assert f[i] == after[i - c - 1];
    }
  }

  /** The object whose state the machine manages (`BaseStateObject`). */
  class FlatObject {
    var state: string              // `_new_state`
    var previous: Option<string>   // `_old_state`
    var trace: seq<FlatEvent>

    constructor (initial: string)
      ensures state == initial && previous == None && trace == []
    {
      state := initial;
      previous := None;
      trace := [];
    }

    /** `_change_state`: the current state becomes the previous one. */
    method ChangeState(s: string)
      modifies this
      ensures state == s && previous == Some(old(state)) && trace == old(trace) + [Changed(s)]
    {
      previous := Some(state);
      state := s;
      trace := trace + [Changed(s)];
    }

    /** `set_state`: assigning the current state does nothing; otherwise
        the transition from the current state to `s` runs, and a missing
        one is a TransitionError. */
    method SetState(m: Machine, s: string, outcome: Callback -> bool) returns (r: Result<()>)
      modifies this
      ensures s == old(state) ==> r == Ok(()) && state == old(state) && previous == old(previous) && trace == old(trace)
      ensures s != old(state) ==> r == MachineSetStateResult(m, old(state), s)
      ensures s != old(state) && r.Ok? ==> Executed(m, m.transitions[(old(state), s)], old(state), old(previous), old(trace), outcome, this)
      ensures r.Err? ==> state == old(state) && previous == old(previous) && trace == old(trace)
    {
      if s == state {
        return Ok(());
      }
      r := MachineSetState(m, s, this, outcome);
    }
  }

  /** What `execute` leaves behind on an object that was in `state0` with
      `previous0` and trace `trace0`. */
  ghost predicate Executed(m: Machine, t: FlatTrans, state0: string, previous0: Option<string>,
                           trace0: seq<FlatEvent>, outcome: Callback -> bool, obj: FlatObject)
    reads obj
  {
    if Holds(t.condition, outcome) then
      obj.state == t.target.name && obj.previous == Some(state0) &&
      obj.trace == trace0 + ConditionEvents(t.condition) + Fired(m, t)
    else
      obj.state == state0 && obj.previous == previous0 && obj.trace == trace0 + ConditionEvents(t.condition)
  }

  lemma FiredAfter(m: Machine, t: FlatTrans, base: seq<FlatEvent>, trace: seq<FlatEvent>)
    requires trace == base + FirstCall(BeforeAnyExitHook, m.beforeAnyExit) + FirstCall(ExitHook, t.source.onExit)
      + FirstCall(TransferHook, t.onTransfer) + [Changed(t.target.name)]
      + FirstCall(EntryHook, t.target.onEntry) + FirstCall(AfterAnyEntryHook, m.afterAnyEntry)
    ensures trace == base + Fired(m, t)
  {
  }

  /** Runs a callbackified list on the object. */
  method Run(obj: FlatObject, hook: Hook, cbs: seq<Callback>, outcome: Callback -> bool) returns (result: Option<bool>)
    modifies obj
    ensures obj.trace == old(obj.trace) + FirstCall(hook, cbs)
    ensures result == (if |cbs| == 0 then None else Some(outcome(cbs[0])))
    ensures obj.state == old(obj.state) && obj.previous == old(obj.previous)
  {
    var ran, res := OldPathTools.Callbackify(cbs, outcome);
    obj.trace := obj.trace + seq(|ran|, k requires 0 <= k < |ran| => Called(hook, ran[k]));
    result := res;
  }

  /** `Transition.execute`: if the condition holds, the callbacks run and
      the state changes in the order `Fired` gives, and the result is true;
      otherwise only the condition ran and the result is false. */
  method Execute(m: Machine, t: FlatTrans, obj: FlatObject, outcome: Callback -> bool) returns (done: bool)
    modifies obj
    ensures done == Holds(t.condition, outcome)
    ensures Executed(m, t, old(obj.state), old(obj.previous), old(obj.trace), outcome, obj)
  {
    var holds := true;
    if t.condition.Some? {
      var res := Run(obj, ConditionHook, t.condition.value, outcome);
      holds := res.Some? && res.value;
    }
    if !holds {
      return false;
    }
    Fire(m, t, obj, outcome);
    return true;
  }

  /** The part of `execute` after a condition that holds. */
  method Fire(m: Machine, t: FlatTrans, obj: FlatObject, outcome: Callback -> bool)
    modifies obj
    ensures obj.state == t.target.name && obj.previous == Some(old(obj.state))
    ensures obj.trace == old(obj.trace) + Fired(m, t)
  {
    ghost var base := obj.trace;
    var _ := Run(obj, BeforeAnyExitHook, m.beforeAnyExit, outcome);
    var _ := Run(obj, ExitHook, t.source.onExit, outcome);
    var _ := Run(obj, TransferHook, t.onTransfer, outcome);
    obj.ChangeState(t.target.name);
    var _ := Run(obj, EntryHook, t.target.onEntry, outcome);
    var _ := Run(obj, AfterAnyEntryHook, m.afterAnyEntry, outcome);
    FiredAfter(m, t, base, obj.trace);
  }

  /** `do_trigger`: the transition registered for the object's state and
      the trigger runs; an unknown pair is a TransitionError. */
  method DoTrigger(m: Machine, trigger: string, obj: FlatObject, outcome: Callback -> bool) returns (r: Result<bool>)
    requires Consistent(m)
    modifies obj
    ensures (old(obj.state), trigger) !in m.triggers ==>
      r == Err(TransitionError) && obj.state == old(obj.state) && obj.previous == old(obj.previous) && obj.trace == old(obj.trace)
    ensures (old(obj.state), trigger) in m.triggers ==>
      var t := m.transitions[m.triggers[(old(obj.state), trigger)]];
      t.source.name == old(obj.state) && r == Ok(Holds(t.condition, outcome)) &&
      Executed(m, t, old(obj.state), old(obj.previous), old(obj.trace), outcome, obj)
  {
    var key := (obj.state, trigger);
    if key !in m.triggers {
      return Err(TransitionError);
    }
    var done := Execute(m, m.transitions[m.triggers[key]], obj, outcome);
    return Ok(done);
  }

  function MachineSetStateResult(m: Machine, current: string, s: string): Result<()>
  {
    if (current, s) in m.transitions then Ok(()) else Err(TransitionError)
  }

  /** The machine's `set_state`: runs the transition between the object's
      state and `s`, discarding whether it took place. */
  method MachineSetState(m: Machine, s: string, obj: FlatObject, outcome: Callback -> bool) returns (r: Result<()>)
    modifies obj
    ensures r == MachineSetStateResult(m, old(obj.state), s)
    ensures r.Ok? ==> Executed(m, m.transitions[(old(obj.state), s)], old(obj.state), old(obj.previous), old(obj.trace), outcome, obj)
    ensures r.Err? ==> obj.state == old(obj.state) && obj.previous == old(obj.previous) && obj.trace == old(obj.trace)
  {
    if (obj.state, s) !in m.transitions {
      return Err(TransitionError);
    }
    var _ := Execute(m, m.transitions[(obj.state, s)], obj, outcome);
    return Ok(());
  }

  /* ---------- the initial state ---------- */

  /** `BaseStateObject.__init__` as written: the first state is chosen
      when no initial state is given, but the assignment after the
      if-statement then overwrites it with the given (empty) value. */
  function InitialAsWritten(m: Machine, initial: Option<string>): (r: Result<Option<string>>)
  {
    if initial == None || initial == Some("") then
      (if |m.states| == 0 then Err(IndexError) else Ok(initial))
    else if initial.value !in NamesOf(m.states) then Err(ValueError)
    else Ok(initial)
  }

  /** Without an initial state, an object of a two-state machine ends up
      with no state at all instead of the first one. */
  lemma InitialOverwritten()
    ensures var m := Machine("switch", [StateDecl("on", [], []), StateDecl("off", [], [])], map[], map[], [], []);
      InitialAsWritten(m, None) == Ok(None) && InitialState(m, None) == Ok("on")
  {
  }

  /** The initial state as documented: the given one if it is a state,
      the first state when none is given. */
  function InitialState(m: Machine, initial: Option<string>): (r: Result<string>)
    ensures r.Ok? ==> r.value in NamesOf(m.states)
    ensures r.Err? ==> r.error == IndexError || r.error == ValueError
    ensures (initial == None || initial == Some("")) ==>
      (|m.states| > 0 <==> r.Ok?) && (r.Ok? ==> r.value == m.states[0].name)
    ensures initial.Some? && initial.value != "" ==>
      (r.Ok? <==> initial.value in NamesOf(m.states)) && (r.Ok? ==> r.value == initial.value)
    ensures initial.Some? && initial.value != "" ==> InitialAsWritten(m, initial) == (if r.Ok? then Ok(initial) else Err(r.error))
  {
    if initial == None || initial == Some("") then
      (if |m.states| == 0 then Err(IndexError)
       else assert NamesOf(m.states)[0] == m.states[0].name; Ok(m.states[0].name))
    else if initial.value !in NamesOf(m.states) then Err(ValueError)
    else Ok(initial.value)
  }

  /** A new object in its initial state, with no previous state. */
  method NewObject(m: Machine, initial: Option<string>) returns (r: Result<FlatObject>)
    ensures r.Ok? <==> InitialState(m, initial).Ok?
    ensures r.Err? ==> r.error == InitialState(m, initial).error
    ensures r.Ok? ==> fresh(r.value) && r.value.state == InitialState(m, initial).value &&
                      r.value.previous == None && r.value.trace == []
  {
    var s := InitialState(m, initial);
    if s.Err? {
      return Err(s.error);
    }
    var obj := new FlatObject(s.value);
    return Ok(obj);
  }
}
