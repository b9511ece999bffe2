/** The path algebra of states/tools.py: a `Path` is a tuple of segments
    (string keys and integer indexes) that converts to and from dotted
    strings, plus the helpers `listify` and `group_by`. */
module PathTools {
  import opened Wrappers

  /** One path segment: a string key or an integer index. */
  datatype Seg = Key(name: string) | Idx(index: int)

  type Path = seq<Seg>

  /* ---------- int() and str() on single segments ---------- */

  predicate IsDigit(c: char) { '0' <= c <= '9' }

  predicate AllDigits(s: string) { forall i :: 0 <= i < |s| ==> IsDigit(s[i]) }

  function DigitsValue(s: string): nat
    requires AllDigits(s)
  {
    if |s| == 0 then 0 else DigitsValue(s[..|s| - 1]) * 10 + (s[|s| - 1] as int - '0' as int)
  }

  /** The decimal digits of a natural number, without leading zeros. */
  function NatDigits(n: nat): (r: string)
    ensures |r| > 0 && AllDigits(r)
  {
    if n < 10 then [('0' as int + n) as char]
    else
      var d := NatDigits(n / 10) + [('0' as int + n % 10) as char];
      assert forall i :: 0 <= i < |d| - 1 ==> d[i] == NatDigits(n / 10)[i];
      d
  }

  /** Python's `str` of an int. */
  function IntString(n: int): string
  {
    if n < 0 then "-" + NatDigits(-n) else NatDigits(n)
  }

  /** Python's `int` of a string: an optional sign followed by decimal digits. */
  function ParseInt(s: string): Option<int>
  {
    if |s| > 0 && AllDigits(s) then Some(DigitsValue(s))
    else if |s| > 1 && (s[0] == '-' || s[0] == '+') && AllDigits(s[1..]) then
      var v: int := DigitsValue(s[1..]);
      Some(if s[0] == '-' then -v else v)
    else None
  }

  lemma {:induction false} DigitsRoundTrip(n: nat)
    ensures DigitsValue(NatDigits(n)) == n
  {
    if n >= 10 {
      var s := NatDigits(n);
      assert s[..|s| - 1] == NatDigits(n / 10);
      DigitsRoundTrip(n / 10);
    }
  }

  /** `int(str(n)) == n` for every integer. */
  lemma IntStringRoundTrip(n: int)
    ensures ParseInt(IntString(n)) == Some(n)
  {
    if n < 0 {
      DigitsRoundTrip(-n);
      var s := IntString(n);
      assert s[1..] == NatDigits(-n);
      assert !IsDigit(s[0]);
    } else {
      DigitsRoundTrip(n);
    }
  }

  /** `Path.validate`: a segment that `int` accepts becomes an index. */
  function Validate(s: string): (r: Seg)
    ensures r.Key? <==> ParseInt(s).None?
    ensures r.Key? ==> r.name == s
  {
    match ParseInt(s)
    case Some(n) => Idx(n)
    case None => Key(s)
  }

  /** `str(segment)`. */
  function SegString(seg: Seg): string
  {
    match seg
    case Key(s) => s
    case Idx(n) => IntString(n)
  }

  /* ---------- splitting and joining on the separator ---------- */

  const Separator: char := '.'

  /** Python's `s.split(".")`: always at least one part, empty parts kept. */
  function Split(s: string): (r: seq<string>)
    ensures |r| >= 1
  {
    if |s| == 0 then [""]
    else if s[0] == Separator then [""] + Split(s[1..])
    else
      var rest := Split(s[1..]);
      [[s[0]] + rest[0]] + rest[1..]
  }

  /** Python's `".".join(parts)`. */
  function Join(parts: seq<string>): string
  {
    if |parts| == 0 then ""
    else if |parts| == 1 then parts[0]
    else parts[0] + [Separator] + Join(parts[1..])
  }

  lemma {:induction false} SplitWord(w: string, t: string)
    requires Separator !in w
    ensures Split(w + t) == [w + Split(t)[0]] + Split(t)[1..]
  {
    if |w| > 0 {
      var sp := Split(t);
      assert (w + t)[1..] == w[1..] + t;
      assert (w + t)[0] == w[0] != Separator;
      SplitWord(w[1..], t);
      assert Split(w[1..] + t) == [w[1..] + sp[0]] + sp[1..];
      assert [w[0]] + (w[1..] + sp[0]) == w + sp[0];
    } else {
      assert w + t == t;
      assert w + Split(t)[0] == Split(t)[0];
      assert Split(t) == [Split(t)[0]] + Split(t)[1..];
    }
  }

  /** Splitting a join of separator-free parts gives the parts back. */
  lemma {:induction false} SplitJoin(parts: seq<string>)
    requires |parts| >= 1
    requires forall i :: 0 <= i < |parts| ==> Separator !in parts[i]
    ensures Split(Join(parts)) == parts
  {
    if |parts| == 1 {
      SplitWord(parts[0], "");
      assert parts[0] + "" == parts[0];
    } else {
      var rest := Join(parts[1..]);
      assert Join(parts) == parts[0] + ([Separator] + rest);
      SplitWord(parts[0], [Separator] + rest);
      assert ([Separator] + rest)[1..] == rest;
      assert Split([Separator] + rest) == [""] + Split(rest);
      SplitJoin(parts[1..]);
      assert parts[0] + "" == parts[0];
      assert parts == [parts[0]] + parts[1..];
    }
  }

  /** Joining the parts of a split gives the string back. */
  lemma {:induction false} JoinSplit(s: string)
    ensures Join(Split(s)) == s
  {
    if |s| > 0 {
      JoinSplit(s[1..]);
      var rest := Split(s[1..]);
      if s[0] == Separator {
        assert s == [s[0]] + s[1..];
      } else {
        var parts := [[s[0]] + rest[0]] + rest[1..];
        assert parts[1..] == rest[1..];
        if |rest| == 1 {
        } else {
          assert Join(rest) == rest[0] + [Separator] + Join(rest[1..]);
          assert s == [s[0]] + s[1..];
        }
      }
    }
  }

  /* ---------- Path(string) and str(Path) ---------- */

  /** The segments of `Path("...")`: empty parts dropped, each part validated. */
  function Segments(parts: seq<string>): Path
  {
    if |parts| == 0 then []
    else (if |parts[0]| > 0 then [Validate(parts[0])] else []) + Segments(parts[1..])
  }

  /** `Path(s)` for a string `s`. */
  function Parse(s: string): Path
  {
    Segments(Split(s))
  }

  function SegStrings(p: Path): (r: seq<string>)
    ensures |r| == |p|
  {
    if |p| == 0 then [] else [SegString(p[0])] + SegStrings(p[1..])
  }

  /** `str(path)`: the segments' strings joined by the separator. */
  function Print(p: Path): string
  {
    Join(SegStrings(p))
  }

  /** A segment that survives printing and parsing: a non-empty key without a
      separator that `int` refuses, or any index. */
  predicate WellFormedSeg(seg: Seg)
  {
    match seg
    case Key(s) => |s| > 0 && Separator !in s && ParseInt(s).None?
    case Idx(_) => true
  }

  predicate WellFormed(p: Path)
  {
    forall i :: 0 <= i < |p| ==> WellFormedSeg(p[i])
  }

  /** A path is well formed exactly when both of its parts are. */
  lemma ConcatWellFormed(a: Path, b: Path)
    ensures WellFormed(a + b) <==> WellFormed(a) && WellFormed(b)
  {
    if WellFormed(a + b) {
      forall i | 0 <= i < |a|
        ensures WellFormedSeg(a[i])
      {
        assert a[i] == (a + b)[i];
      }
      forall i | 0 <= i < |b|
        ensures WellFormedSeg(b[i])
      {
        assert b[i] == (a + b)[|a| + i];
      }
    }
    if WellFormed(a) && WellFormed(b) {
      forall i | 0 <= i < |a + b|
        ensures WellFormedSeg((a + b)[i])
      {
        if i >= |a| {
          assert (a + b)[i] == b[i - |a|];
        }
      }
    }
  }

  lemma {:induction false} SegmentsWellFormed(parts: seq<string>)
    requires forall i :: 0 <= i < |parts| ==> Separator !in parts[i]
    ensures WellFormed(Segments(parts))
  {
    if |parts| > 0 {
      SegmentsWellFormed(parts[1..]);
    }
  }

  lemma {:induction false} SplitPartsFree(s: string)
    ensures forall i :: 0 <= i < |Split(s)| ==> Separator !in Split(s)[i]
  {
    if |s| > 0 {
      SplitPartsFree(s[1..]);
    }
  }

  /** Parsing never yields an empty key, a key with a separator, or a key that
      should have been an index. */
  lemma ParseWellFormed(s: string)
    ensures WellFormed(Parse(s))
  {
    SplitPartsFree(s);
    SegmentsWellFormed(Split(s));
  }

  lemma IntStringFree(n: int)
    ensures |IntString(n)| > 0 && Separator !in IntString(n)
  {
    var d := NatDigits(if n < 0 then -n else n);
    assert Separator !in d by {
      forall i | 0 <= i < |d| ensures d[i] != Separator { assert IsDigit(d[i]); }
    }
  }

  lemma {:induction false} SegStringsFree(p: Path)
    requires WellFormed(p)
    ensures forall i :: 0 <= i < |p| ==> |SegStrings(p)[i]| > 0 && Separator !in SegStrings(p)[i]
  {
    if |p| > 0 {
      SegStringsFree(p[1..]);
      if p[0].Idx? { IntStringFree(p[0].index); }
    }
  }

  lemma {:induction false} SegmentsOfStrings(p: Path)
    requires WellFormed(p)
    ensures Segments(SegStrings(p)) == p
  {
    if |p| > 0 {
      SegStringsFree(p);
      SegmentsOfStrings(p[1..]);
      match p[0]
      case Idx(n) => IntStringRoundTrip(n);
      case Key(_) =>
    }
  }

  /** `Path(str(p)) == p` for every well-formed path. */
  lemma ParsePrint(p: Path)
    requires WellFormed(p)
    ensures Parse(Print(p)) == p
  {
    if |p| > 0 {
      SegStringsFree(p);
      SplitJoin(SegStrings(p));
      SegmentsOfStrings(p);
    }
  }

  /** Printing after parsing is idempotent on the parsed path. */
  lemma ParseIdempotent(s: string)
    ensures Parse(Print(Parse(s))) == Parse(s)
  {
    ParseWellFormed(s);
    ParsePrint(Parse(s));
  }

  /** A dotted part that prints back as itself after validation: not a
      number, or a number in canonical form ("3", "-2", not "03" or "+2"). */
  predicate Canonical(part: string)
  {
    match ParseInt(part)
    case None => true
    case Some(n) => IntString(n) == part
  }

  lemma {:induction false} StringsOfSegments(parts: seq<string>)
    requires forall i :: 0 <= i < |parts| ==> |parts[i]| > 0 && Canonical(parts[i])
    ensures SegStrings(Segments(parts)) == parts
  {
    if |parts| > 0 {
      StringsOfSegments(parts[1..]);
    }
  }

  /** `str(Path(s)) == s` when `s` has no empty parts and its numeric parts
      are canonical. */
  lemma PrintParse(s: string)
    requires forall i :: 0 <= i < |Split(s)| ==> |Split(s)[i]| > 0 && Canonical(Split(s)[i])
    ensures Print(Parse(s)) == s
  {
    StringsOfSegments(Split(s));
    JoinSplit(s);
  }

  /** Empty parts are dropped and digit parts become indexes. */
  /** `"a..3".split(".")` keeps the empty piece between the two dots. */
  lemma SplitExample()
    ensures Split("a..3") == ["a", "", "3"]
  {
    assert Split("") == [""];
    assert "3"[1..] == "" && "3"[0] == '3';
    assert ['3'] + "" == "3";
    assert Split("3") == ["3"];
    assert ".3"[1..] == "3";
    assert Split(".3") == ["", "3"];
    assert "..3"[1..] == ".3";
    assert Split("..3") == ["", "", "3"];
    assert "a..3"[1..] == "..3" && "a..3"[0] == 'a';
    assert ['a'] + "" == "a";
  }

  /** An empty piece is dropped and a digit string becomes an index, so the
      parsed path prints back without the doubled dot. */
  lemma ParseExample()
    ensures Parse("a..3") == [Key("a"), Idx(3)]
    ensures Print(Parse("a..3")) == "a.3"
  {
    SplitExample();
    assert DigitsValue("3") == 3;
    assert ParseInt("a").None?;
    assert Segments(["3"]) == [Idx(3)];
    assert NatDigits(3) == "3";
  }

  /* ---------- Path + ... ---------- */

  /** The right operand of `Path.__add__`. */
  datatype Addend = PathArg(path: Path) | StrArg(text: string) | IntArg(n: int)

  /** `p + x`: a string is parsed, an int becomes a one-segment path. */
  function Add(p: Path, x: Addend): Path
  {
    match x
    case PathArg(q) => p + q
    case StrArg(s) => p + Parse(s)
    case IntArg(n) => p + [Idx(n)]
  }

  /** Adding the printed form of a path adds the path itself. */
  lemma AddPrinted(p: Path, q: Path)
    requires WellFormed(q)
    ensures Add(p, StrArg(Print(q))) == Add(p, PathArg(q))
  {
    ParsePrint(q);
  }

  /* ---------- prefix, suffix and sub-path queries ---------- */

  /** `iter_paths`: the non-empty prefixes, shortest first. */
  method IterPaths(p: Path) returns (r: seq<Path>)
    ensures |r| == |p|
    ensures forall i :: 0 <= i < |r| ==> r[i] == p[..i + 1]
  {
    r := [];
    var i := 1;
    while i <= |p|
      invariant 1 <= i <= |p| + 1
      invariant |r| == i - 1
      invariant forall j :: 0 <= j < |r| ==> r[j] == p[..j + 1]
    {
      r := r + [p[..i]];
      i := i + 1;
    }
  }

  /** `tail`: strip a prefix; a mismatching segment raises KeyError and a
      prefix argument longer than the path runs off its end (IndexError). */
  method Tail(p: Path, q: Path) returns (r: Result<Path>)
    ensures r == if q <= p then Ok(p[|q|..]) else if p < q then Err(IndexError) else Err(KeyError)
    ensures r.Ok? ==> q + r.value == p
  {
    var i := 0;
    while i < |q|
      invariant 0 <= i <= |q|
      invariant i <= |p| && q[..i] == p[..i]
    {
      if i >= |p| {
        return Err(IndexError);
      }
      if q[i] != p[i] {
        assert !(q <= p) && !(p < q) by {
          assert q[i] != p[i];
        }
        return Err(KeyError);
      }
      assert q[..i + 1] == q[..i] + [q[i]];
      assert p[..i + 1] == p[..i] + [p[i]];
      i := i + 1;
    }
    assert q == q[..i];
    r := Ok(p[|q|..]);
    assert p == p[..|q|] + p[|q|..];
  }

  /** Whether `q` is a suffix of `p`. */
  predicate IsSuffix(q: Path, p: Path)
  {
    |q| <= |p| && p[|p| - |q|..] == q
  }

  /** `head` as written: `self[:-len(path)]`, which for an empty argument is
      `self[:0]`, the empty path. */
  function HeadAsWritten(p: Path, q: Path): (r: Result<Path>)
    ensures |q| > 0 && r.Ok? ==> r.value + q == p
    ensures r.Ok? <==> IsSuffix(q, p)
  {
    if |q| > |p| then Err(IndexError)
    else if p[|p| - |q|..] != q then Err(KeyError)
    else if |q| == 0 then Ok([])
    else
      assert p == p[..|p| - |q|] + p[|p| - |q|..];
      Ok(p[..|p| - |q|])
  }

  /** Stripping nothing from the right of a path returns the empty path. */
  lemma HeadOfNothingIsEmpty()
    ensures HeadAsWritten([Key("a")], []) == Ok([])
  {
  }

  /** `head` as intended: strip a suffix, keeping everything before it. */
  method Head(p: Path, q: Path) returns (r: Result<Path>)
    ensures r.Ok? <==> IsSuffix(q, p)
    ensures r.Ok? ==> r.value + q == p
    ensures r.Err? ==> r.error == if |q| > |p| then IndexError else KeyError
  {
    if |q| > |p| {
      return Err(IndexError);
    }
    var n := |p| - |q|;
    var i := 0;
    while i < |q|
      invariant 0 <= i <= |q|
      invariant q[..i] == p[n..n + i]
    {
      if q[i] != p[n + i] {
        assert p[n..][i] != q[i];
        return Err(KeyError);
      }
      assert q[..i + 1] == q[..i] + [q[i]];
      assert p[n..n + i + 1] == p[n..n + i] + [p[n + i]];
      i := i + 1;
    }
    assert q == q[..i] && p[n..] == p[n..n + i];
    r := Ok(p[..n]);
    assert p == p[..n] + p[n..];
  }

  /** The number of leading segments two paths share. */
  function CommonLength(a: Path, b: Path): (k: nat)
    ensures k <= |a| && k <= |b|
    ensures a[..k] == b[..k]
    ensures k == |a| || k == |b| || a[k] != b[k]
  {
    if |a| == 0 || |b| == 0 || a[0] != b[0] then 0
    else
      var k := 1 + CommonLength(a[1..], b[1..]);
      assert a[..k] == [a[0]] + a[1..][..k - 1];
      assert b[..k] == [b[0]] + b[1..][..k - 1];
      k
  }

  /** `splice(a, b)`: the longest common prefix and the two remainders. */
  function SpliceOf(a: Path, b: Path): (Path, Path, Path)
  {
    var k := CommonLength(a, b);
    (a[..k], a[k..], b[k..])
  }

  /** The remainders complete the common prefix to each path, and they do not
      start with the same segment, so the common prefix is the longest one. */
  lemma SpliceLaws(a: Path, b: Path)
    ensures SpliceOf(a, b).0 + SpliceOf(a, b).1 == a
    ensures SpliceOf(a, b).0 + SpliceOf(a, b).2 == b
    ensures var (_, ta, tb) := SpliceOf(a, b); ta == [] || tb == [] || ta[0] != tb[0]
    ensures a == b ==> SpliceOf(a, b) == (a, [], [])
  {
    var k := CommonLength(a, b);
    assert a == a[..k] + a[k..];
    assert b == b[..k] + b[k..];
    if a == b {
      assert k == |a|;
      assert a[..k] == a;
    }
  }

  /** Any split of two paths into a common prefix and remainders that do not
      start alike is the one `splice` returns. */
  lemma SpliceUnique(a: Path, b: Path, c: Path, ta: Path, tb: Path)
    requires c + ta == a && c + tb == b
    requires ta == [] || tb == [] || ta[0] != tb[0]
    ensures SpliceOf(a, b) == (c, ta, tb)
  {
    var k := CommonLength(a, b);
    assert a[..|c|] == c == b[..|c|];
    assert k == |c|;
  }

  /** `splice` as a loop over the zipped segments. */
  method Splice(a: Path, b: Path) returns (c: Path, ta: Path, tb: Path)
    ensures (c, ta, tb) == SpliceOf(a, b)
    ensures c + ta == a && c + tb == b
  {
    var i := 0;
    while i < |a| && i < |b| && a[i] == b[i]
      invariant 0 <= i <= |a| && i <= |b|
      invariant a[..i] == b[..i]
    {
      assert a[..i + 1] == a[..i] + [a[i]];
      assert b[..i + 1] == b[..i] + [b[i]];
      i := i + 1;
    }
    SpliceUnique(a, b, a[..i], a[i..], b[i..]);
    c, ta, tb := a[..i], a[i..], b[i..];
  }

  /** `partition(key)`: split around the first occurrence of `key`; an absent
      key leaves the whole path in front. */
  method Partition(p: Path, key: Seg) returns (before: Path, sep: Seg, after: Path)
    ensures sep == key
    ensures key in p ==> before + [key] + after == p && key !in before
    ensures key !in p ==> before == p && after == []
  {
    sep := key;
    var i := 0;
    while i < |p|
      invariant 0 <= i <= |p|
      invariant key !in p[..i]
    {
      if p[i] == key {
        before, after := p[..i], p[i + 1..];
        assert p == p[..i] + [p[i]] + p[i + 1..];
        return;
      }
      assert p[..i + 1] == p[..i] + [p[i]];
      i := i + 1;
    }
    assert p[..i] == p;
    before, after := p, [];
  }

  /** The splits of a path strictly inside it: `(p[..i], p[i..])` for
      `0 < i < |p|`. */
  function InnerSplits(p: Path): (r: seq<(Path, Path)>)
    ensures |r| == (if |p| > 0 then |p| - 1 else 0)
  {
    seq(if |p| > 0 then |p| - 1 else 0, j requires 0 <= j < |p| - 1 => (p[..j + 1], p[j + 1..]))
  }

  /** The (head, tail) pairs `trace_in` visits: optionally the empty head
      first, then the inner splits, then optionally the full head. */
  function Traced(p: Path, first: bool, last: bool): seq<(Path, Path)>
  {
    (if first then [([], p)] else []) + InnerSplits(p) + (if last then [(p, [])] else [])
  }

  /** Every visited pair splits the path, in order of the head's length. */
  lemma TracedLaws(p: Path, first: bool, last: bool)
    ensures var r := Traced(p, first, last);
            |r| == (if first then 1 else 0) + (if |p| > 0 then |p| - 1 else 0) + (if last then 1 else 0) &&
            (forall j :: 0 <= j < |r| ==> r[j].0 + r[j].1 == p) &&
            (first ==> r[0] == ([], p)) &&
            (last ==> r[|r| - 1] == (p, [])) &&
            var off := if first then 1 else 0;
            forall i :: 1 <= i < |p| ==> r[off + i - 1] == (p[..i], p[i..])
  {
    var r := Traced(p, first, last);
    var pre: seq<(Path, Path)> := if first then [([], p)] else [];
    var mid := InnerSplits(p);
    forall j | 0 <= j < |r|
      ensures r[j].0 + r[j].1 == p
    {
      if j < |pre| {
        assert r[j] == ([], p);
      } else if j < |pre| + |mid| {
        assert r[j] == mid[j - |pre|];
        assert p[..j - |pre| + 1] + p[j - |pre| + 1..] == p;
      } else {
        assert r[j] == (p, []);
      }
    }
    forall i | 1 <= i < |p|
      ensures r[|pre| + i - 1] == (p[..i], p[i..])
    {
      assert r[|pre| + i - 1] == mid[i - 1];
    }
  }

  /** One more inner split: the one at `i`. */
  lemma InnerSplitsStep(p: Path, i: nat)
    requires 1 <= i < |p|
    ensures InnerSplits(p)[..i] == InnerSplits(p)[..i - 1] + [(p[..i], p[i..])]
  {
  }

  /** The walk ends having listed every inner split. */
  lemma InnerSplitsAll(p: Path, i: nat)
    requires i == |p| || (i == 0 && |p| == 0)
    ensures InnerSplits(p)[..if i > 0 then i - 1 else 0] == InnerSplits(p)
  {
  }

  /* ---------- nested containers: get_in, set_in, del_in ---------- */

  /** A nested structure of mappings and lists, with integer leaves. */
  datatype Node = Atom(value: int) | Dict(entries: map<Seg, Node>) | List(items: seq<Node>)

  /** `target[k]` without any fallback. */
  function Subscript(t: Node, k: Seg): Result<Node>
  {
    match t
    case Dict(m) => if k in m then Ok(m[k]) else Err(KeyError)
    case List(xs) =>
      if k.Key? then Err(TypeError)
      else if -|xs| <= k.index < |xs| then Ok(xs[if k.index < 0 then k.index + |xs| else k.index])
      else Err(IndexError)
    case Atom(_) => Err(TypeError)
  }

  /** The key `target[k]` falls back to: `str(k)`. */
  function Fallback(k: Seg): Seg { Key(SegString(k)) }

  /** `target[k]`, retried as `target[str(k)]` on a KeyError. */
  function Lookup(t: Node, k: Seg): Result<Node>
  {
    var r := Subscript(t, k);
    if r.Err? && r.error == KeyError then Subscript(t, Fallback(k)) else r
  }

  /** Writes a changed child back where `Lookup` found it. */
  function Store(t: Node, k: Seg, c: Node): Node
  {
    match t
    case Dict(m) => if k in m then Dict(m[k := c]) else Dict(m[Fallback(k) := c])
    case List(xs) =>
      if k.Idx? && -|xs| <= k.index < |xs| then List(xs[(if k.index < 0 then k.index + |xs| else k.index) := c])
      else t
    case Atom(_) => t
  }

  /** `get_in` without a default. */
  function GetIn(p: Path, t: Node): Result<Node>
  {
    if |p| == 0 then Ok(t)
    else
      var c :- Lookup(t, p[0]);
      GetIn(p[1..], c)
  }

  /** `get_in` with a default: any lookup error yields the default. */
  function GetInOr(p: Path, t: Node, default: Node): (r: Node)
    ensures GetIn(p, t).Ok? ==> r == GetIn(p, t).value
    ensures GetIn(p, t).Err? ==> r == default
  {
    match GetIn(p, t)
    case Ok(v) => v
    case Err(_) => default
  }

  /** `has_in`: true when `get_in` finds the path, false when it raises
      KeyError; any other lookup error (an index out of range, a key into
      a list or an atom) is not caught and propagates. */
  function HasIn(p: Path, t: Node): (r: Result<bool>)
    ensures r == Ok(true) <==> GetIn(p, t).Ok?
    ensures r == Ok(false) <==> GetIn(p, t) == Err(KeyError)
    ensures r.Err? ==> GetIn(p, t) == Err(r.error) && r.error != KeyError
  {
    match GetIn(p, t)
    case Ok(_) => Ok(true)
    case Err(e) => if e == KeyError then Ok(false) else Err(e)
  }

  /** A missing key answers false, but an index past the end of a list
      raises IndexError. */
  lemma HasInErrors()
    ensures HasIn([Key("a")], Dict(map[])) == Ok(false)
    ensures HasIn([Idx(1)], List([])) == Err(IndexError)
  {
    assert [Key("a")][1..] == [] && [Idx(1)][1..] == [];
    assert Lookup(Dict(map[]), Key("a")) == Err(KeyError);
    assert Lookup(List([]), Idx(1)) == Err(IndexError);
  }

  /** `target[k] = item` on the parent container. */
  function Assign(t: Node, k: Seg, item: Node): Result<Node>
  {
    match t
    case Dict(m) => Ok(Dict(m[k := item]))
    case List(xs) =>
      if k.Key? then Err(TypeError)
      else if -|xs| <= k.index < |xs| then Ok(List(xs[(if k.index < 0 then k.index + |xs| else k.index) := item]))
      else Err(IndexError)
    case Atom(_) => Err(TypeError)
  }

  /** `set_in`, on values: the whole structure after the assignment. */
  function SetIn(p: Path, t: Node, item: Node): Result<Node>
  {
    if |p| == 0 then Err(IndexError)
    else if |p| == 1 then Assign(t, p[0], item)
    else
      var c :- Lookup(t, p[0]);
      var c' :- SetIn(p[1..], c, item);
      Ok(Store(t, p[0], c'))
  }

  /** `del target[k]`, retried as `del target[str(k)]` on a KeyError. */
  function Remove(t: Node, k: Seg): Result<Node>
  {
    match t
    case Dict(m) =>
      if k in m then Ok(Dict(m - {k}))
      else if Fallback(k) in m then Ok(Dict(m - {Fallback(k)}))
      else Err(KeyError)
    case List(xs) =>
      if k.Key? then Err(TypeError)
      else if -|xs| <= k.index < |xs| then
        var i := if k.index < 0 then k.index + |xs| else k.index;
        Ok(List(xs[..i] + xs[i + 1..]))
      else Err(IndexError)
    case Atom(_) => Err(TypeError)
  }

  /** `del_in`, on values: the whole structure after the deletion. */
  function DelIn(p: Path, t: Node): Result<Node>
  {
    if |p| == 0 then Err(IndexError)
    else if |p| == 1 then Remove(t, p[0])
    else
      var c :- Lookup(t, p[0]);
      var c' :- DelIn(p[1..], c);
      Ok(Store(t, p[0], c'))
  }

  lemma LookupStore(t: Node, k: Seg, c: Node, c': Node)
    requires Lookup(t, k) == Ok(c)
    ensures Lookup(Store(t, k, c'), k) == Ok(c')
  {
  }

  /** After `set_in`, `get_in` on the same path returns the stored item. */
  lemma {:induction false} SetThenGet(p: Path, t: Node, item: Node)
    requires SetIn(p, t, item).Ok?
    ensures GetIn(p, SetIn(p, t, item).value) == Ok(item)
  {
    if |p| > 1 {
      var c := Lookup(t, p[0]).value;
      var c' := SetIn(p[1..], c, item).value;
      LookupStore(t, p[0], c, c');
      SetThenGet(p[1..], c, item);
    }
  }

  /** `set_in` on a mapping changes only the one key of the parent mapping. */
  lemma {:induction false} SetChangesOneKey(q: Path, k: Seg, t: Node, m: map<Seg, Node>, item: Node)
    requires GetIn(q, t) == Ok(Dict(m))
    ensures SetIn(q + [k], t, item).Ok?
    ensures GetIn(q, SetIn(q + [k], t, item).value) == Ok(Dict(m[k := item]))
  {
    var p := q + [k];
    if |q| > 0 {
      assert p[0] == q[0] && p[1..] == q[1..] + [k];
      var c := Lookup(t, q[0]).value;
      SetChangesOneKey(q[1..], k, c, m, item);
      var c' := SetIn(p[1..], c, item).value;
      LookupStore(t, q[0], c, c');
    }
  }

  /** `del_in` on a mapping removes exactly one key of the parent mapping: the
      segment itself, or its string form when only that is present. */
  lemma {:induction false} DelRemovesOneKey(q: Path, k: Seg, t: Node, m: map<Seg, Node>)
    requires GetIn(q, t) == Ok(Dict(m))
    ensures DelIn(q + [k], t).Ok? <==> (k in m || Fallback(k) in m)
    ensures DelIn(q + [k], t).Ok? ==>
      GetIn(q, DelIn(q + [k], t).value) == Ok(Dict(m - {if k in m then k else Fallback(k)}))
  {
    var p := q + [k];
    if |q| > 0 {
      assert p[0] == q[0] && p[1..] == q[1..] + [k];
      var c := Lookup(t, q[0]).value;
      DelRemovesOneKey(q[1..], k, c, m);
      if DelIn(p[1..], c).Ok? {
        LookupStore(t, q[0], c, DelIn(p[1..], c).value);
      }
    }
  }

  /* ---------- iter_in and iter_out over any subscriptable tree ---------- */

  /** The nodes met after each key while walking `p` into `t`. */
  function Walk<T>(p: Path, t: T, child: (T, Seg) -> Result<T>): (r: Result<seq<T>>)
    ensures r.Ok? ==> |r.value| == |p|
  {
    if |p| == 0 then Ok([])
    else
      var c :- child(t, p[0]);
      var rest :- Walk(p[1..], c, child);
      Ok([c] + rest)
  }

  /** The node `p` leads to from `t`, looking each key up in turn. */
  function Reach<T>(p: Path, t: T, child: (T, Seg) -> Result<T>): Result<T>
  {
    if |p| == 0 then Ok(t)
    else
      var c :- child(t, p[0]);
      Reach(p[1..], c, child)
  }

  /** Reaching along a concatenation reaches the first part, then the
      second from there. */
  lemma {:induction false} ReachConcat<T>(p: Path, q: Path, t: T, child: (T, Seg) -> Result<T>)
    ensures Reach(p + q, t, child) == (var n :- Reach(p, t, child); Reach(q, n, child))
  {
    if |p| > 0 {
      assert (p + q)[0] == p[0] && (p + q)[1..] == p[1..] + q;
      match child(t, p[0])
      case Ok(c) => ReachConcat(p[1..], q, c, child);
      case Err(_) =>
    } else {
      assert p + q == q;
    }
  }

  /** One more key: the node at `p[..i + 1]` is the child of the node at
      `p[..i]`, and a failing lookup there is the error of the whole path. */
  lemma ReachStep<T>(p: Path, i: nat, t: T, n: T, child: (T, Seg) -> Result<T>)
    requires i < |p| && Reach(p[..i], t, child) == Ok(n)
    ensures child(n, p[i]).Ok? ==> Reach(p[..i + 1], t, child) == child(n, p[i])
    ensures child(n, p[i]).Err? ==> Reach(p, t, child) == child(n, p[i])
  {
    ReachConcat(p[..i], [p[i]], t, child);
    assert p[..i] + [p[i]] == p[..i + 1];
    assert [p[i]][1..] == [];
    ReachConcat(p[..i], p[i..], t, child);
    assert p[..i] + p[i..] == p;
    assert p[i..][0] == p[i];
  }

  /** The triples `r` follow the (head, tail) pairs `steps`, each with the
      node its head reaches. */
  ghost predicate Yielded<T>(r: seq<(Path, T, Path)>, steps: seq<(Path, Path)>, target: T, child: (T, Seg) -> Result<T>)
  {
    |r| <= |steps| &&
    forall j :: 0 <= j < |r| ==> r[j].0 == steps[j].0 && r[j].2 == steps[j].1 && Reach(r[j].0, target, child) == Ok(r[j].1)
  }

  lemma YieldedAppend<T>(r: seq<(Path, T, Path)>, steps: seq<(Path, Path)>, target: T, child: (T, Seg) -> Result<T>,
                         x: (Path, T, Path))
    requires Yielded(r, steps, target, child) && |r| < |steps|
    requires x.0 == steps[|r|].0 && x.2 == steps[|r|].1 && Reach(x.0, target, child) == Ok(x.1)
    ensures Yielded(r + [x], steps, target, child)
  {
  }

  /** Where `trace_in` finds each pair: the inner split at `i` follows the
      optional first pair, and the optional last pair ends the list. */
  lemma TracedAt(p: Path, first: bool, last: bool, i: nat)
    ensures var off := if first then 1 else 0;
            |Traced(p, first, last)| == off + (if |p| > 0 then |p| - 1 else 0) + (if last then 1 else 0) &&
            (first ==> Traced(p, first, last)[0] == ([], p)) &&
            (last ==> Traced(p, first, last)[|Traced(p, first, last)| - 1] == (p, [])) &&
            (1 <= i < |p| ==> Traced(p, first, last)[off + i - 1] == (p[..i], p[i..]))
  {
    TracedLaws(p, first, last);
  }

  /** `trace_in`: walking into `target` along `p`, the triples (head, node,
      tail) yielded before the walk ends, and the lookup error `target[key]`
      raised when a key is missing. The heads and tails are those of
      `Traced`, each node is what its head reaches, and a failing lookup
      stops the generator right after the triples for the keys before it. */
  method TraceIn<T>(p: Path, target: T, child: (T, Seg) -> Result<T>, first: bool, last: bool)
    returns (r: seq<(Path, T, Path)>, raised: Option<Error>)
    ensures Yielded(r, Traced(p, first, last), target, child)
    ensures raised.None? <==> Reach(p, target, child).Ok?
    ensures raised.None? ==> |r| == |Traced(p, first, last)|
    ensures raised.Some? ==>
              raised.value == Reach(p, target, child).error &&
              var i := |r| - (if first then 1 else 0);
              0 <= i < |p| && Reach(p[..i], target, child).Ok? &&
              child(Reach(p[..i], target, child).value, p[i]) == Err(raised.value)
  {
    ghost var steps := Traced(p, first, last);
    ghost var off := if first then 1 else 0;
    TracedAt(p, first, last, 0);
    var head: Path, node, tail: Path := [], target, p;
    assert p[..0] == [];
    r := if first then [(head, node, tail)] else [];
    var i := 0;
    while i < |p|
      invariant 0 <= i <= |p| && (i == 0 || i < |p|)
      invariant head == p[..i] && tail == p[i..]
      invariant Reach(p[..i], target, child) == Ok(node)
      invariant |r| == off + i
      invariant Yielded(r, steps, target, child)
    {
      ReachStep(p, i, target, node, child);
      var c := child(node, p[i]);
      if c.Err? {
        return r, Some(c.error);
      }
      head := head + [p[i]];
      node := c.value;
      tail := tail[1..];
      assert head == p[..i + 1];
      i := i + 1;
      if tail == [] {
        break;
      }
      TracedAt(p, first, last, i);
      YieldedAppend(r, steps, target, child, (head, node, tail));
      r := r + [(head, node, tail)];
    }
    assert head == p && tail == [] && |r| == off + (if |p| > 0 then |p| - 1 else 0);
    if last {
      assert p[..|p|] == p;
      YieldedAppend(r, steps, target, child, (head, node, tail));
      r := r + [(head, node, tail)];
    }
    return r, None;
  }

  /** `iter_in`: the nodes along the path, outermost first; `withTarget` adds
      the starting node. */
  function IterIn<T>(p: Path, t: T, child: (T, Seg) -> Result<T>, withTarget: bool): Result<seq<T>>
  {
    var w :- Walk(p, t, child);
    Ok(if withTarget then [t] + w else w)
  }

  function Reversed<T>(s: seq<T>): (r: seq<T>)
    ensures |r| == |s|
  {
    if |s| == 0 then [] else Reversed(s[1..]) + [s[0]]
  }

  /** `iter_out`: `iter_in` in reverse order, innermost first. */
  function IterOut<T>(p: Path, t: T, child: (T, Seg) -> Result<T>, withTarget: bool): Result<seq<T>>
  {
    var nodes :- IterIn(p, t, child, withTarget);
    Ok(Reversed(nodes))
  }

  lemma {:induction false} ReversedAt<T>(s: seq<T>, i: nat)
    requires i < |s|
    ensures Reversed(s)[i] == s[|s| - 1 - i]
  {
    if i < |s| - 1 {
      ReversedAt(s[1..], i);
    }
  }

  /** Each node `iter_in` yields is the child of the one before it under the
      next key, starting from the target itself. */
  lemma {:induction false} WalkSteps<T>(p: Path, t: T, child: (T, Seg) -> Result<T>)
    requires Walk(p, t, child).Ok?
    ensures forall i :: 0 <= i < |p| ==>
      child(if i == 0 then t else Walk(p, t, child).value[i - 1], p[i]) == Ok(Walk(p, t, child).value[i])
  {
    if |p| > 0 {
      var c := child(t, p[0]).value;
      WalkSteps(p[1..], c, child);
    }
  }

  /** `iter_out` lists the same nodes as `iter_in`, innermost first. */
  lemma IterOutReverses<T>(p: Path, t: T, child: (T, Seg) -> Result<T>, withTarget: bool)
    requires IterIn(p, t, child, withTarget).Ok?
    ensures IterOut(p, t, child, withTarget).Ok?
    ensures var ins := IterIn(p, t, child, withTarget).value;
            var outs := IterOut(p, t, child, withTarget).value;
            |outs| == |ins| == |p| + (if withTarget then 1 else 0) &&
            forall i :: 0 <= i < |ins| ==> outs[i] == ins[|ins| - 1 - i]
  {
    var ins := IterIn(p, t, child, withTarget).value;
    forall i | 0 <= i < |ins| ensures Reversed(ins)[i] == ins[|ins| - 1 - i] {
      ReversedAt(ins, i);
    }
  }

  /* ---------- listify and group_by ---------- */

  /** The argument of `listify`: a list, a tuple, a set or a single item. */
  datatype ListArg<T> = ListOf(items: seq<T>) | TupleOf(items: seq<T>) | SetOf(members: set<T>) | Single(item: T)

  /** Whether `r` is a list `listify` can return for `x`: the elements of a
      list or tuple in order, the members of a set once each in some order,
      or the single item. */
  ghost predicate Listed<T(!new)>(x: ListArg<T>, r: seq<T>)
  {
    match x
    case ListOf(items) => r == items
    case TupleOf(items) => r == items
    case SetOf(s) => |r| == |s| && forall y :: y in r <==> y in s
    case Single(item) => r == [item]
  }

  /** `listify`: lists, tuples and sets become lists of their elements (a set
      in some iteration order); anything else becomes a one-item list. */
  method Listify<T(==,!new)>(x: ListArg<T>) returns (r: seq<T>)
    ensures Listed(x, r)
  {
    match x
    case ListOf(items) => r := items;
    case TupleOf(items) => r := items;
    case Single(item) => r := [item];
    case SetOf(s) =>
      r := [];
      var rest := s;
      while rest != {}
        invariant rest <= s
        invariant forall y :: y in r <==> y in s && y !in rest
        invariant |r| + |rest| == |s|
        decreases |rest|
      {
        var y :| y in rest;
        r := r + [y];
        rest := rest - {y};
      }
  }

  /** The objects of `objs` whose key is `k`, in order. */
  function Group<T, K(==)>(objs: seq<T>, key: T -> K, k: K): seq<T>
  {
    if |objs| == 0 then []
    else Group(objs[..|objs| - 1], key, k) + (if key(objs[|objs| - 1]) == k then [objs[|objs| - 1]] else [])
  }

  /** A group holds objects of the sequence with that key. */
  lemma {:induction false} GroupMembers<T, K>(objs: seq<T>, key: T -> K, k: K)
    ensures forall x :: x in Group(objs, key, k) ==> x in objs && key(x) == k
  {
    if |objs| > 0 {
      var init := objs[..|objs| - 1];
      GroupMembers(init, key, k);
      assert forall x :: x in init ==> x in objs;
    }
  }

  /** The mapping `group_by` builds, one object at a time. */
  function Grouping<T, K(==)>(objs: seq<T>, key: T -> K): map<K, seq<T>>
  {
    if |objs| == 0 then map[]
    else
      var g := Grouping(objs[..|objs| - 1], key);
      var k := key(objs[|objs| - 1]);
      g[k := (if k in g then g[k] else []) + [objs[|objs| - 1]]]
  }

  /** A key is present exactly when it occurs, and then it maps to its
      objects in order, of which there is at least one. */
  lemma {:induction false} GroupingAt<T, K>(objs: seq<T>, key: T -> K, k: K)
    ensures k in Grouping(objs, key) <==> exists i :: 0 <= i < |objs| && key(objs[i]) == k
    ensures k in Grouping(objs, key) ==> Grouping(objs, key)[k] == Group(objs, key, k) && Grouping(objs, key)[k] != []
    ensures k !in Grouping(objs, key) ==> Group(objs, key, k) == []
  {
    if |objs| > 0 {
      var init := objs[..|objs| - 1];
      GroupingAt(init, key, k);
      if k in Grouping(init, key) {
        var i :| 0 <= i < |init| && key(init[i]) == k;
        assert key(objs[i]) == k;
      }
      if key(objs[|objs| - 1]) != k {
        forall i | 0 <= i < |objs| - 1
          ensures key(objs[i]) == key(init[i])
        {
        }
      }
    }
  }

  /** `group_by`: a mapping from each key that occurs to its objects in order. */
  method GroupBy<T, K(==)>(objs: seq<T>, key: T -> K) returns (g: map<K, seq<T>>)
    ensures g == Grouping(objs, key)
    ensures forall k :: k in g <==> exists i :: 0 <= i < |objs| && key(objs[i]) == k
    ensures forall k :: k in g ==> g[k] == Group(objs, key, k) && g[k] != []
  {
    g := map[];
    var i := 0;
    while i < |objs|
      invariant 0 <= i <= |objs|
      invariant g == Grouping(objs[..i], key)
    {
      assert objs[..i + 1][..i] == objs[..i] && objs[..i + 1][i] == objs[i];
      var o := objs[i];
      var k := key(o);
      g := g[k := (if k in g then g[k] else []) + [o]];
      i := i + 1;
    }
    assert objs[..i] == objs;
    forall k
      ensures k in g <==> exists i :: 0 <= i < |objs| && key(objs[i]) == k
      ensures k in g ==> g[k] == Group(objs, key, k) && g[k] != []
    {
      GroupingAt(objs, key, k);
    }
  }
}
