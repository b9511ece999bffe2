/** The callback store of states/callbacks.py: a mapping from callback kind
    (`on_entry`, `condition`, ...) to the list of callbacks registered for
    it. Calling a kind runs all of its callbacks and reports whether every
    result was truthy. */
module CallbackStore {
  import opened Wrappers
  import opened PathTools
  import opened Trace

  /* ---------- str.strip ---------- */

  predicate IsSpace(c: char)
  {
    c == ' ' || c == '\t' || c == '\n' || c == '\r' || c == '\U{000B}' || c == '\U{000C}'
  }

  function StripLeft(s: string): (r: string)
    ensures |r| <= |s|
    ensures |r| == 0 || !IsSpace(r[0])
  {
    if |s| > 0 && IsSpace(s[0]) then StripLeft(s[1..]) else s
  }

  function StripRight(s: string): (r: string)
    ensures |r| <= |s|
    ensures |r| == 0 || !IsSpace(r[|r| - 1])
  {
    if |s| > 0 && IsSpace(s[|s| - 1]) then StripRight(s[..|s| - 1]) else s
  }

  /** `lstrip` drops leading characters only. */
  lemma {:induction false} StripLeftSuffix(s: string)
    ensures StripLeft(s) == s[|s| - |StripLeft(s)|..]
  {
    if |s| > 0 && IsSpace(s[0]) {
      StripLeftSuffix(s[1..]);
      assert s[1..][|s| - 1 - |StripLeft(s)|..] == s[|s| - |StripLeft(s)|..];
    }
  }

  /** `rstrip` drops trailing characters only. */
  lemma {:induction false} StripRightPrefix(s: string)
    ensures StripRight(s) == s[..|StripRight(s)|]
  {
    if |s| > 0 && IsSpace(s[|s| - 1]) {
      StripRightPrefix(s[..|s| - 1]);
      assert s[..|s| - 1][..|StripRight(s)|] == s[..|StripRight(s)|];
    }
  }

  /** `s.strip()`: the string without leading and trailing white space. */
  function Strip(s: string): (r: string)
  {
    StripRight(StripLeft(s))
  }

  lemma StripRightKeepsStart(s: string)
    requires |s| == 0 || !IsSpace(s[0])
    ensures var r := StripRight(s); |r| == 0 || !IsSpace(r[0])
  {
    StripRightPrefix(s);
  }

  /** Stripping leaves nothing to strip, so it is idempotent. */
  lemma {:induction false} StripIdempotent(s: string)
    ensures var r := Strip(s);
            (|r| == 0 || (!IsSpace(r[0]) && !IsSpace(r[|r| - 1]))) && Strip(r) == r
  {
    var l := StripLeft(s);
    StripRightKeepsStart(l);
    var r := StripRight(l);
    StripLeftStops(r);
    StripRightStops(r);
  }

  lemma StripLeftStops(s: string)
    requires |s| == 0 || !IsSpace(s[0])
    ensures StripLeft(s) == s
  {
  }

  lemma StripRightStops(s: string)
    requires |s| == 0 || !IsSpace(s[|s| - 1])
    ensures StripRight(s) == s
  {
  }

  /* ---------- callback lists as values ---------- */

  /** The callback lists, by kind. */
  type Kinds = map<string, seq<Callback>>

  /** `all(results)` for the results the callbacks return. */
  predicate AllHold(cbs: seq<Callback>, outcome: Callback -> bool)
  {
    forall i :: 0 <= i < |cbs| ==> outcome(cbs[i])
  }

  /** `has_any`: the kind exists, under its stripped name, and is non-empty. */
  predicate HasAnyIn(kinds: Kinds, name: string)
  {
    Strip(name) in kinds && |kinds[Strip(name)]| > 0
  }

  /** The argument each stripped name ends up with when the constructor
      entries are stored in order, a later entry overwriting an earlier one. */
  function Arguments(init: seq<(string, ListArg<Callback>)>): map<string, ListArg<Callback>>
  {
    if |init| == 0 then map[]
    else Arguments(init[..|init| - 1])[Strip(init[|init| - 1].0) := init[|init| - 1].1]
  }

  /** A kind is present exactly when some entry has that stripped name, and
      it holds the argument of the last such entry. */
  lemma {:induction false} ArgumentsLast(init: seq<(string, ListArg<Callback>)>, i: nat)
    requires i < |init|
    requires forall j :: i < j < |init| ==> Strip(init[j].0) != Strip(init[i].0)
    ensures Strip(init[i].0) in Arguments(init)
    ensures Arguments(init)[Strip(init[i].0)] == init[i].1
  {
    if i < |init| - 1 {
      ArgumentsLast(init[..|init| - 1], i);
    }
  }

  /** The callbacks of one state or transition. */
  class Callbacks {
    var kinds: Kinds

    /** Every kind is stored under its stripped name. */
    ghost predicate Valid()
      reads this
    {
      forall k :: k in kinds ==> Strip(k) == k
    }

    /** `Callbacks(**callbacks)`: each name is stripped and each value
        listified; a later entry with the same stripped name wins. */
    constructor (init: seq<(string, ListArg<Callback>)>)
      ensures Valid()
      ensures kinds.Keys == Arguments(init).Keys
      ensures forall k :: k in kinds ==> Listed(Arguments(init)[k], kinds[k])
    {
      var ks: Kinds := map[];
      var i := 0;
      while i < |init|
        invariant 0 <= i <= |init|
        invariant forall k :: k in ks ==> Strip(k) == k
        invariant ks.Keys == Arguments(init[..i]).Keys
        invariant forall k :: k in ks ==> Listed(Arguments(init[..i])[k], ks[k])
      {
        var name := Strip(init[i].0);
        StripIdempotent(init[i].0);
        var cbs := Listify(init[i].1);
        assert init[..i + 1][..i] == init[..i];
        ks := ks[name := cbs];
        i := i + 1;
      }
      assert init[..i] == init;
      kinds := ks;
    }

    /** `__getattr__` followed by a call: every callback of the kind runs, in
        registration order and without short-circuit, and the result is
        whether all of them returned a truthy value; an unknown kind raises
        AttributeError. */
    method Call(name: string, outcome: Callback -> bool) returns (r: Result<bool>, ran: seq<Callback>)
      ensures name !in kinds ==> r == Err(AttributeError) && ran == []
      ensures name in kinds ==> ran == kinds[name] && r == Ok(AllHold(kinds[name], outcome))
    {
      if name !in kinds {
        return Err(AttributeError), [];
      }
      var cbs := kinds[name];
      var results: seq<bool> := [];
      ran := [];
      var i := 0;
      while i < |cbs|
        invariant 0 <= i <= |cbs|
        invariant ran == cbs[..i] && |results| == i
        invariant forall j :: 0 <= j < i ==> results[j] == outcome(cbs[j])
      {
        ran := ran + [cbs[i]];
        results := results + [outcome(cbs[i])];
        i := i + 1;
      }
      assert cbs[..i] == cbs;
      r := Ok(forall j :: 0 <= j < |results| ==> results[j]);
    }

    /** `register`: extends the stored list in place, so later calls run the
        added callbacks too; an unknown kind raises KeyError. */
    method Register(name: string, cbs: seq<Callback>) returns (r: Result<()>)
      requires Valid()
      modifies this
      ensures Valid()
      ensures Strip(name) in old(kinds) ==>
        r.Ok? && kinds == old(kinds)[Strip(name) := old(kinds)[Strip(name)] + cbs]
      ensures Strip(name) !in old(kinds) ==> r == Err(KeyError) && kinds == old(kinds)
      ensures r.Ok? && |cbs| > 0 ==> HasAny(name)
    {
      var k := Strip(name);
      if k !in kinds {
        return Err(KeyError);
      }
      kinds := kinds[k := kinds[k] + cbs];
      r := Ok(());
    }

    /** `has_any`. */
    predicate HasAny(name: string)
      reads this
    {
      HasAnyIn(kinds, name)
    }

    /** The store `copy` builds: its keyword arguments are this store's
        kinds with copies of their lists, which are already stripped and
        listified, so construction stores them unchanged. */
    constructor Copied(ks: Kinds)
      requires forall k :: k in ks ==> Strip(k) == k
      ensures Valid() && kinds == ks
    {
      kinds := ks;
    }

    /** `copy`: a new store equal to this one and independent of it. */
    method Copy() returns (c: Callbacks)
      requires Valid()
      ensures fresh(c) && c.Valid() && c.kinds == kinds
    {
      c := new Callbacks.Copied(kinds);
    }

    /** `as_json_dict`: the kinds that have callbacks, with their lists. */
    function AsJsonDict(): (r: Kinds)
      reads this
      requires Valid()
      ensures forall k :: k in r <==> k in kinds && HasAny(k)
      ensures forall k :: k in r ==> r[k] == kinds[k]
    {
      map k | k in kinds && |kinds[k]| > 0 :: kinds[k]
    }
  }
}
