/** The first generation of the path helpers, statemachine/tools.py. Its
    `get_in`, `set_in`, `del_in`, `iter_paths`, `tail` and `head` have the
    same bodies as the later ones in PathTools and are modelled there; what
    differs is parsing (empty parts are kept), printing (only string
    segments can be joined), `+`, `listify` and `callbackify`. */
module OldPathTools {
  import opened Wrappers
  import opened PathTools

  /** The argument of the older `listify`: only lists and tuples are unpacked. */
  datatype OldListArg<T> = ListOf(items: seq<T>) | TupleOf(items: seq<T>) | Other(item: T)

  /** `listify`: a list or tuple becomes a list of its elements; anything
      else, a set included, becomes a one-item list. */
  function Listify<T>(x: OldListArg<T>): (r: seq<T>)
    ensures x.Other? ==> r == [x.item]
    ensures !x.Other? ==> r == x.items
  {
    match x
    case ListOf(items) => items
    case TupleOf(items) => items
    case Other(item) => [item]
  }

  /** Listifying a listified value changes nothing. */
  lemma ListifyIdempotent<T>(x: OldListArg<T>)
    ensures Listify(OldListArg.ListOf(Listify(x))) == Listify(x)
    ensures x.ListOf? ==> Listify(x) == x.items
  {
  }

  /** `callbackify`: the combined callback loops over the callbacks but
      returns from inside the loop with the result of the first one, so only
      that one runs; with no callbacks it returns None. */
  method Callbackify<C, V>(callbacks: seq<C>, outcome: C -> V) returns (ran: seq<C>, result: Option<V>)
    ensures |callbacks| == 0 ==> ran == [] && result == None
    ensures |callbacks| > 0 ==> ran == [callbacks[0]] && result == Some(outcome(callbacks[0]))
  {
    if |callbacks| > 0 {
      ran, result := [callbacks[0]], Some(outcome(callbacks[0]));
    } else {
      ran, result := [], None;
    }
  }

  /** `Path(s)` for a string: every part of the split is kept, numbers
      become indexes. */
  function Parse(s: string): (r: Path)
    ensures |r| == |Split(s)|
  {
    Validates(Split(s))
  }

  function Validates(parts: seq<string>): (r: Path)
    ensures |r| == |parts|
    ensures forall i :: 0 <= i < |parts| ==> r[i] == Validate(parts[i])
  {
    if |parts| == 0 then [] else [Validate(parts[0])] + Validates(parts[1..])
  }

  /** A path without its empty-string keys. */
  function DropEmpty(p: Path): Path
  {
    if |p| == 0 then []
    else (if p[0] == Key("") then [] else [p[0]]) + DropEmpty(p[1..])
  }

  lemma {:induction false} DropEmptyValidates(parts: seq<string>)
    ensures DropEmpty(Validates(parts)) == Segments(parts)
  {
    if |parts| > 0 {
      DropEmptyValidates(parts[1..]);
      assert Validates(parts)[1..] == Validates(parts[1..]);
      assert Validate(parts[0]) == Key("") <==> |parts[0]| == 0;
    }
  }

  /** The later parser is the earlier one with the empty parts removed. */
  lemma LaterParseDropsEmptyParts(s: string)
    ensures DropEmpty(Parse(s)) == PathTools.Parse(s)
  {
    DropEmptyValidates(Split(s));
  }

  /** The empty string parses to one empty key here and to no segment in the
      later version. */
  lemma EmptyStringParse()
    ensures Parse("") == [Key("")]
    ensures PathTools.Parse("") == []
  {
  }

  /** `str(path)`: `".".join(self)`, which fails on an integer segment. */
  function Print(p: Path): (r: Result<string>)
    ensures r.Err? <==> exists i :: 0 <= i < |p| && p[i].Idx?
    ensures r.Err? ==> r.error == TypeError
  {
    if exists i :: 0 <= i < |p| && p[i].Idx? then Err(TypeError)
    else
      assert forall i :: 0 <= i < |p| ==> p[i].Key?;
      Ok(Join(Names(p)))
  }

  function Names(p: Path): (r: seq<string>)
    requires forall i :: 0 <= i < |p| ==> p[i].Key?
    ensures |r| == |p| && forall i :: 0 <= i < |p| ==> r[i] == p[i].name
  {
    if |p| == 0 then [] else [p[0].name] + Names(p[1..])
  }

  /** A string none of whose parts is a number prints back as itself. */
  lemma PrintParse(s: string)
    requires forall i :: 0 <= i < |Split(s)| ==> ParseInt(Split(s)[i]).None?
    ensures Print(Parse(s)) == Ok(s)
  {
    var p := Parse(s);
    assert forall i :: 0 <= i < |p| ==> p[i] == Key(Split(s)[i]);
    assert Names(p) == Split(s);
    JoinSplit(s);
  }

  /** `p + v`: a string is parsed first; an int cannot be added to a tuple. */
  function Add(p: Path, v: Addend): (r: Result<Path>)
    ensures v.IntArg? <==> r.Err?
  {
    match v
    case PathArg(q) => Ok(p + q)
    case StrArg(s) => Ok(p + Parse(s))
    case IntArg(_) => Err(TypeError)
  }

  /** Adding a string adds one segment per separator-delimited part. */
  lemma AddString(p: Path, s: string)
    ensures Add(p, StrArg(s)).Ok?
    ensures |Add(p, StrArg(s)).value| == |p| + |Split(s)|
    ensures Add(p, StrArg(s)).value[..|p|] == p
  {
    assert (p + Parse(s))[..|p|] == p;
  }
}
