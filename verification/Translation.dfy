/**
 * translatePaths: every path argument, the source prefixes and the current
 * directory move into a guest whose root is their deepest common directory.
 */
module Translation {
  import opened Prelude
  import opened Paths
  import opened Arguments

  // ------------------------------------------------------------------ meaning

  /** The caller's path; c is the current directory, normalized. */
  function Absolute(c: string, value: string): string {
    Normalize(JoinPath(c, value))
  }

  function Dirname(path: string): string {
    var p := Parse(path);
    Format(p.(parts := if p.parts == [] then [] else p.parts[..|p.parts| - 1]))
  }

  /** The directory that a path argument needs below the root. */
  function Holder(args: Args, c: string, e: PathArg): string
    requires Fits(args, e)
  {
    var path := Absolute(c, Value(args, e));
    if e.directory then path else Dirname(path)
  }

  /** The directory holds the current one and every path argument. */
  ghost predicate AllBelow(args: Args, c: string, d: string) {
    IsWithin(c, d) && forall e | e in PathArgs(args) && Named(args, e) :: IsWithin(Holder(args, c, e), d)
  }

  /** Of all directories above the current one and every path argument, the lowest. */
  ghost predicate CommonRoot(args: Args, c: string, root: string) {
    && Rooted(root) && AllBelow(args, c, root)
    && forall d | AllBelow(args, c, d) :: IsWithin(root, d)
  }

  /** The path arguments are guest paths, and all others are unchanged. */
  predicate Translated(args: Args, c: string, root: string, result: Args) {
    && |result| == |args|
    && (forall e | e in PathArgs(args) && Named(args, e) ::
          result[e.index] == e.prefix + GuestOf(Absolute(c, Value(args, e)), root))
    && (forall j | 0 <= j < |args| && (forall e | e in PathArgs(args) && Named(args, e) :: e.index != j) ::
          result[j] == args[j])
  }

  lemma AbsoluteRooted(c: string, value: string)
    requires Rooted(c)
    ensures Rooted(Absolute(c, value)) && Rooted(JoinPath(c, value))
    ensures Parse(Absolute(c, value)) == Parse(JoinPath(c, value))
    ensures Normalize(Absolute(c, value)) == Absolute(c, value)
  {
    NormalizeTwice(JoinPath(c, value));
  }

  lemma DirnameParses(path: string)
    requires Rooted(path)
    ensures Rooted(Dirname(path)) && IsWithin(path, Dirname(path))
  {
    var p := Parse(path);
    ParseIsNormal(path);
    NormalPrefix(p, if p.parts == [] then 0 else |p.parts| - 1);
    ParseFormat(p.(parts := if p.parts == [] then [] else p.parts[..|p.parts| - 1]));
  }

  /** The directory of a name in a directory is that directory. */
  lemma DirnameOf(path: string, name: string)
    requires path != "" && Whole(name) && name != ".."
    ensures Dirname(path + "/" + name) == Normalize(path)
  {
    ParseChild(path, name);
    hide Parse, Format;
  }

  lemma WithinChain(a: string, b: string, d: string)
    requires IsWithin(a, b) && IsWithin(b, d)
    ensures IsWithin(a, d)
  {
    hide Parse;
  }

  lemma PathIsBelow(args: Args, c: string, root: string, e: PathArg)
    requires Rooted(c) && Named(args, e) && IsWithin(Holder(args, c, e), root)
    ensures IsWithin(Absolute(c, Value(args, e)), root)
  {
    hide IsWithin, Absolute, Dirname;
    AbsoluteRooted(c, Value(args, e));
    if !e.directory {
      DirnameParses(Absolute(c, Value(args, e)));
      WithinChain(Absolute(c, Value(args, e)), Dirname(Absolute(c, Value(args, e))), root);
    }
  }

  /** A translated argument, put below the root again, is the caller's absolute path. */
  lemma TranslatedReturns(args: Args, c: string, root: string, result: Args, e: PathArg)
    requires Rooted(c) && CommonRoot(args, c, root) && Translated(args, c, root, result)
    requires e in PathArgs(args) && Named(args, e)
    ensures Fits(result, e) && Normalize(root + Value(result, e)) == Absolute(c, Value(args, e))
  {
    PathIsBelow(args, c, root, e);
    var path := Absolute(c, Value(args, e));
    AbsoluteRooted(c, Value(args, e));
    GuestReturns(path, root);
    assert result[e.index][|e.prefix|..] == GuestOf(path, root);
  }

  lemma OneIndex(s: seq<PathArg>, d: PathArg, e: PathArg)
    requires Ascending(s) && d in s && e in s && d.index == e.index
    ensures d == e
  {
  }

  /** So it is scanned as before. */
  lemma TranslatedMirrors(args: Args, c: string, root: string, result: Args)
    requires Translated(args, c, root, result)
    ensures Mirrors(args, result, PathArgs(args), 0)
  {
    hide Absolute, PathArgs;
    PathArgsFit(args);
    forall e | e in PathArgs(args)
      ensures result[e.index] == args[e.index] || Replaced(e, args[e.index], result[e.index]) {
      assert Fits(args, e);
      if !Named(args, e) {
        forall d | d in PathArgs(args) && Named(args, d) ensures d.index != e.index {
          if d.index == e.index {
            OneIndex(PathArgs(args), d, e);
          }
        }
      }
    }
  }

  lemma MirrorsFrom(args: Args, result: Args, s: seq<PathArg>, i: nat)
    requires Mirrors(args, result, s, 0)
    ensures Mirrors(args, result, s, i)
  {
  }

  lemma {:induction false} OperationStays(args: Args, result: Args, i: nat)
    requires |result| == |args|
    requires match OperationFrom(args, i)
             case None => result == args
             case Some((at, op)) => forall j | i <= j <= at :: j < |args| && result[j] == args[j]
    ensures OperationFrom(result, i) == OperationFrom(args, i)
    decreases |args| - i
  {
    if i < |args| && args[i] != "--" && "-" <= args[i] {
      OperationAfter(args, i + 1);
      OperationStays(args, result, i + 1);
    } else if i < |args| {
      OperationAfter(args, i);
    }
  }

  lemma {:induction false} OperationAfter(args: Args, i: nat)
    ensures OperationFrom(args, i).Some? ==> i <= OperationFrom(args, i).value.0 < |args|
    decreases |args| - i
  {
    if i < |args| && args[i] != "--" && "-" <= args[i] {
      OperationAfter(args, i + 1);
    }
  }

  /** Nothing up to the operation is a path. */
  lemma HeadStays(args: Args, result: Args, op: string, at: nat)
    requires Mirrors(args, result, Scan(args, op, at + 1, true, 0), 0) && at < |args|
    ensures |result| == |args| && forall j | 0 <= j <= at :: result[j] == args[j]
  {
    ScanFits(args, op, at + 1, true, 0);
    hide Scan;
  }

  lemma MirrorsStay(args: Args, result: Args)
    requires Mirrors(args, result, PathArgs(args), 0)
    ensures PathArgs(result) == PathArgs(args) && OptionsStay(args, result, PathArgs(args))
    ensures OperationFrom(result, 0) == OperationFrom(args, 0)
  {
    hide Scan, OperationFrom;
    if OperationFrom(args, 0).None? {
      assert result == args;
      assert OptionsStay(args, result, []);
    } else {
      var (at, op) := OperationFrom(args, 0).value;
      OperationAfter(args, 0);
      HeadStays(args, result, op, at);
      OperationStays(args, result, 0);
      MirrorsFrom(args, result, PathArgs(args), at + 1);
      hide Mirrors, OptionsStay;
      ScanStays(args, result, op, at + 1, true, 0);
    }
  }

  lemma PathArgsStay(args: Args, c: string, root: string, result: Args)
    requires Translated(args, c, root, result)
    ensures PathArgs(result) == PathArgs(args) && OptionsStay(args, result, PathArgs(args))
    ensures OperationFrom(result, 0) == OperationFrom(args, 0)
  {
    hide *;
    TranslatedMirrors(args, c, root, result);
    MirrorsStay(args, result);
  }

  // ---------------------------------------------------------- source prefixes

  /** The argument is a source prefix to the compiler. */
  predicate IsPrefix(args: Args, e: PathArg) {
    || e.prefix == "--src-prefix="
    || (e.prefix == "" && e.directory && 0 < e.index <= |args| && args[e.index - 1] == "--src-prefix")
  }

  /** The argument is one to translatePaths, which also takes a positional one after a stray --src-prefix. */
  predicate LooksLikePrefix(args: Args, e: PathArg) {
    || e.prefix == "--src-prefix="
    || (e.prefix == "" && 0 < e.index <= |args| && args[e.index - 1] == "--src-prefix")
  }

  predicate Covers(args: Args, c: string, e: PathArg) {
    Named(args, e) && IsWithin(c, Absolute(c, Value(args, e)))
  }

  /** Some source prefix holds the current directory. */
  predicate Covered(args: Args, c: string) {
    exists e | e in PathArgs(args) :: IsPrefix(args, e) && Covers(args, c, e)
  }

  predicate Mistaken(args: Args, c: string) {
    exists e | e in PathArgs(args) :: LooksLikePrefix(args, e) && !IsPrefix(args, e) && Covers(args, c, e)
  }

  lemma CoversStays(args: Args, c: string, root: string, result: Args, e: PathArg)
    requires Rooted(c) && CommonRoot(args, c, root) && Translated(args, c, root, result) && e in PathArgs(args)
    ensures Named(result, e) <==> Named(args, e)
    ensures Covers(result, GuestOf(c, root), e) <==> Covers(args, c, e)
  {
    PathArgsFit(args);
    if Named(args, e) {
      var path := Absolute(c, Value(args, e));
      PathIsBelow(args, c, root, e);
      AbsoluteRooted(c, Value(args, e));
      assert Value(result, e) == GuestOf(path, root);
      GuestWithin(c, path, root);
      NormalizeTwice(GuestOf(path, root));
    } else {
      EmptyStays(args, c, root, result, e);
    }
  }

  /** An empty path is left for the compiler to refuse. */
  lemma EmptyStays(args: Args, c: string, root: string, result: Args, e: PathArg)
    requires Translated(args, c, root, result) && e in PathArgs(args) && Fits(args, e) && Value(args, e) == ""
    ensures result[e.index] == args[e.index]
  {
    hide Absolute, PathArgs;
    PathArgsFit(args);
    forall d | d in PathArgs(args) && Named(args, d) ensures d.index != e.index {
      if d.index == e.index {
        OneIndex(PathArgs(args), d, e);
      }
    }
  }

  /** The guest sees the same source prefixes hold its current directory. */
  lemma CoveredStays(args: Args, c: string, root: string, result: Args)
    requires Rooted(c) && CommonRoot(args, c, root) && Translated(args, c, root, result)
    ensures Covered(result, GuestOf(c, root)) <==> Covered(args, c)
  {
    PathArgsStay(args, c, root, result);
    hide CommonRoot, Translated, Covers, PathArgs;
    forall e | e in PathArgs(args)
      ensures Covers(result, GuestOf(c, root), e) <==> Covers(args, c, e)
      ensures IsPrefix(result, e) <==> IsPrefix(args, e) {
      CoversStays(args, c, root, result, e);
    }
  }

  // --------------------------------------------------------- the added prefix

  function SeparatorFrom(args: Args, i: nat): (j: nat)
    requires i <= |args|
    ensures i <= j <= |args| && (j < |args| ==> args[j] == "--") && forall k | i <= k < j :: args[k] != "--"
    decreases |args| - i
  {
    if i == |args| || args[i] == "--" then i else SeparatorFrom(args, i + 1)
  }

  /** The first argument that is `--`, or the end. */
  function Separator(args: Args): nat {
    SeparatorFrom(args, 0)
  }

  function InsertAt(args: Args, at: nat, more: Args): Args
    requires at <= |args|
  {
    args[..at] + more + args[at..]
  }

  predicate IsPath(args: Args, j: nat) {
    exists e | e in PathArgs(args) :: Named(args, e) && e.index == j
  }

  /** The first `--` that is not itself a path argument, or the end. */
  function Stop(args: Args, i: nat): nat
    requires i <= |args|
    decreases |args| - i
  {
    if i == |args| || (args[i] == "--" && !IsPath(args, i)) then i else Stop(args, i + 1)
  }

  /** The scan of options comes to `end`, rather than past it with the value of an option. */
  predicate Reaches(args: Args, i: nat, end: nat)
    requires end <= |args|
    decreases end - i
  {
    if i >= end then i == end else Reaches(args, After(KindOf(args[i], true), i), end)
  }

  lemma StopInside(args: Args, i: nat)
    requires i <= |args|
    ensures i <= Stop(args, i) <= |args|
    decreases |args| - i
  {
  }

  /** No option swallows an argument put before the separator. */
  predicate Lands(args: Args)
  {
    StopInside(args, 0);
    match OperationFrom(args, 0)
    case None => false
    case Some((at, _)) => Reaches(args, at + 1, Stop(args, 0))
  }

  lemma SeparatorStays(args: Args, c: string, root: string, result: Args, j: nat)
    requires Translated(args, c, root, result) && j < |args|
    ensures result[j] == "--" <==> args[j] == "--" && !IsPath(args, j)
  {
    hide Absolute, PathArgs, Named;
    if IsPath(args, j) {
      var e :| e in PathArgs(args) && Named(args, e) && e.index == j;
      PathsAreNoSeparators(e.prefix, GuestOf(Absolute(c, ValueOf(args, e)), root));
    }
  }

  function ValueOf(args: Args, e: PathArg): string
    requires Named(args, e)
  {
    Value(args, e)
  }

  lemma PathsAreNoSeparators(prefix: string, path: string)
    requires path != "" && path[0] == '/'
    ensures prefix + path != "--"
  {
    assert (prefix + path)[|prefix|] == '/';
  }

  lemma {:induction false} StopStays(args: Args, c: string, root: string, result: Args, i: nat)
    requires Translated(args, c, root, result) && i <= |args|
    ensures SeparatorFrom(result, i) == Stop(args, i)
    decreases |args| - i
  {
    hide Translated, IsPath;
    assert |result| == |args| by {
      TranslatedLength(args, c, root, result);
    }
    if i < |args| {
      SeparatorStays(args, c, root, result, i);
      if result[i] != "--" {
        StopStays(args, c, root, result, i + 1);
      }
    }
  }

  lemma TranslatedLength(args: Args, c: string, root: string, result: Args)
    requires Translated(args, c, root, result)
    ensures |result| == |args|
  {
  }

  lemma {:induction false} ReachesStays(args: Args, result: Args, op: string, i: nat, position: nat, end: nat)
    requires Mirrors(args, result, Scan(args, op, i, true, position), i)
    requires end <= |args| && forall j | 0 <= j < end :: result[j] != "--"
    ensures |result| == |args| && Reaches(result, i, end) == Reaches(args, i, end)
    decreases end - i
  {
    hide KindOf, Found, PathAt;
    if i < end {
      var k := KindOf(args[i], true);
      SameKind(args, result, op, i, true, position);
      KindOfSeparator(result[i]);
      FoundFits(args, op, i, true, position);
      var count := if k.Positional? then position + 1 else position;
      MirrorsRest(args, result, Found(args, op, i, true, position), Scan(args, op, After(k, i), true, count), i, After(k, i));
      ReachesStays(args, result, op, After(k, i), count, end);
    }
  }

  lemma KindOfSeparator(arg: string)
    ensures KindOf(arg, true) == Arguments.Separator <==> arg == "--"
  {
  }

  /** An argument that lands is scanned. */
  lemma {:induction false} InsertLands(args: Args, op: string, i: nat, position: nat, end: nat, x: string)
    requires end <= |args| && (forall j | 0 <= j < end :: args[j] != "--") && Reaches(args, i, end)
    requires KindOf(x, true) == Attached("--src-prefix=")
    ensures PathArg(end, "--src-prefix=", true) in Scan(InsertAt(args, end, [x]), op, i, true, position)
    decreases end - i
  {
    hide KindOf, PathAt;
    var longer := InsertAt(args, end, [x]);
    if i == end {
      assert longer[i] == x;
      assert PathArg(end, "--src-prefix=", true) in Found(longer, op, i, true, position);
    } else {
      assert longer[i] == args[i];
      KindOfSeparator(args[i]);
      var k := KindOf(args[i], true);
      hide Found;
      InsertLands(args, op, After(k, i), if k.Positional? then position + 1 else position, end, x);
    }
  }

  lemma {:induction false} PositionalsOnly(args: Args, op: string, i: nat, position: nat)
    ensures forall e | e in Scan(args, op, i, false, position) :: e.prefix == "" && !e.directory
    decreases |args| - i
  {
    if i < |args| {
      PositionalsOnly(args, op, i + 1, position + 1);
    }
  }

  /** What follows an argument that was swallowed. */
  lemma AfterSwallowed(longer: Args, op: string, i: nat, position: nat)
    requires i <= |longer| && (i < |longer| ==> longer[i] == "--")
    ensures forall e | e in Scan(longer, op, i, true, position) :: e.prefix == "" && !e.directory
  {
    if i < |longer| {
      PositionalsOnly(longer, op, i + 1, position);
    }
  }

  /** An argument that is swallowed adds no option, and turns what follows into positional arguments. */
  lemma {:induction false} InsertMisses(args: Args, op: string, i: nat, position: nat, end: nat, x: string, e: PathArg)
    requires i < end <= |args| && (forall j | 0 <= j < end :: args[j] != "--") && !Reaches(args, i, end)
    requires end < |args| ==> args[end] == "--"
    requires var longer := InsertAt(args, end, [x]); e in Scan(longer, op, i, true, position) && IsPrefix(longer, e)
    ensures e == PathArg(end, "", true) || (e in Scan(args, op, i, true, position) && e.index < end)
    decreases end - i
  {
    hide KindOf, PathAt;
    var longer := InsertAt(args, end, [x]);
    assert longer[i] == args[i];
    KindOfSeparator(args[i]);
    AttachedHasPrefix(args[i], true);
    var k := KindOf(args[i], true);
    var next, count := After(k, i), if k.Positional? then position + 1 else position;
    assert next <= i + 2;
    if e in Found(longer, op, i, true, position) {
      FoundHere(longer, op, i, true, position, e);
      if e.index < end {
        assert e in Found(args, op, i, true, position);
      }
    } else {
      hide Found;
      assert e in Scan(longer, op, next, true, count);
      if next < end {
        InsertMisses(args, op, next, count, end, x, e);
      } else {
        AfterSwallowed(longer, op, next, count);
        assert false;
      }
    }
  }

  function SrcPrefix(c: string, root: string): string {
    "--src-prefix=" + GuestOf(c, root)
  }

  /** The source prefix goes before the separator. */
  function WithPrefix(result: Args, prefix: string): Args {
    InsertAt(result, Separator(result), [prefix])
  }

  lemma SrcPrefixParses(g: string)
    ensures KindOf("--src-prefix=" + g, true) == Attached("--src-prefix=")
    ensures ("--src-prefix=" + g)[|"--src-prefix="|..] == g
  {
    SrcPrefixStays("--src-prefix=" + g);
  }

  lemma LongerPath(g: string, parts: seq<string>)
    requires Rooted(g) && Parse(g).parts == parts
    ensures var p := Parse(g + "/" + "--src-prefix=" + "/" + GuestPath.Join(parts)); p.rooted && |p.parts| > |parts|
  {
    var x := "--src-prefix=" + "/" + GuestPath.Join(parts);
    assert g + "/" + x == g + "/" + "--src-prefix=" + "/" + GuestPath.Join(parts);
    hide *;
    LongerAfter(g, parts, x);
  }

  lemma LongerAfter(g: string, parts: seq<string>, x: string)
    requires Rooted(g) && Parse(g).parts == parts && x == "--src-prefix=" + "/" + GuestPath.Join(parts)
    ensures var p := Parse(g + "/" + x); p.rooted && |p.parts| > |parts|
  {
    hide *;
    ParseIsNormal(g);
    PartsAfter(g, x);
    GuestPath.SplitAfter("--src-prefix=", GuestPath.Join(parts));
    LongerParts(parts, "--src-prefix=", GuestPath.Split(GuestPath.Join(parts)));
    RootedNormal(g, parts);
    StillNormal(parts);
    KeepJoin(true, parts + ["--src-prefix="], parts);
  }

  lemma RootedNormal(g: string, parts: seq<string>)
    requires Rooted(g) && Normal(Parse(g)) && Parse(g).parts == parts
    ensures Normal(Parsed(true, parts))
  {
    RootedIs(g);
    hide Parse, Rooted, Normal;
    assert Parse(g) == Parsed(true, parts);
  }

  lemma PartsAfter(g: string, x: string)
    requires Rooted(g)
    ensures Parse(g + "/" + x) == Parsed(true, Keep(true, Parse(g).parts, GuestPath.Split(x)))
  {
    hide Keep;
    ParseCat(g, x);
  }

  lemma StillNormal(parts: seq<string>)
    requires Normal(Parsed(true, parts))
    ensures Normal(Parsed(true, parts + ["--src-prefix="] + parts))
  {
    var all := parts + ["--src-prefix="] + parts;
    forall j | 0 <= j < |all| ensures Whole(all[j]) && all[j] != ".." {
      if j < |parts| {
        assert all[j] == parts[j];
      } else if j > |parts| {
        assert all[j] == parts[j - |parts| - 1];
      }
    }
  }

  lemma SrcPrefixJoins(c: string, root: string, parts: seq<string>)
    requires GuestOf(c, root) == "/" + GuestPath.Join(parts)
    ensures JoinPath(GuestOf(c, root), SrcPrefix(c, root))
         == GuestOf(c, root) + "/" + "--src-prefix=" + "/" + GuestPath.Join(parts)
  {
    hide GuestOf;
    var g, x := GuestOf(c, root), SrcPrefix(c, root);
    assert x[0] == '-';
    assert g + "/" + x == g + "/" + "--src-prefix=" + "/" + GuestPath.Join(parts);
  }

  lemma GuestIs(c: string, root: string)
    requires Rooted(c) && IsWithin(c, root)
    ensures Rooted(GuestOf(c, root)) && GuestOf(c, root) == "/" + GuestPath.Join(Parse(GuestOf(c, root)).parts)
  {
    GuestParses(c, root);
    hide Parse, Rooted;
    assert ("/" + GuestPath.Join(Parse(GuestOf(c, root)).parts))[0] == '/';
    RootedIs(GuestOf(c, root));
  }

  /** As the value of another option, it is a path below the directory, not above it. */
  lemma SwallowedIsBelow(c: string, root: string)
    requires Rooted(c) && IsWithin(c, root)
    ensures !IsWithin(GuestOf(c, root), Absolute(GuestOf(c, root), SrcPrefix(c, root)))
  {
    hide Parse, GuestOf, SrcPrefix, JoinPath, Rooted, Normalize;
    var g := GuestOf(c, root);
    GuestIs(c, root);
    SrcPrefixJoins(c, root, Parse(g).parts);
    LongerPath(g, Parse(g).parts);
    NormalizeTwice(JoinPath(g, SrcPrefix(c, root)));
  }

  lemma LongerParts(parts: seq<string>, part: string, rest: seq<string>)
    requires part != "" && part != "." && part != ".."
    ensures Keep(true, parts, [part] + rest) == Keep(true, parts + [part], rest)
  {
    assert ([part] + rest)[1..] == rest;
  }

  lemma {:induction false} OperationBefore(args: Args, i: nat)
    requires OperationFrom(args, i).Some?
    ensures forall j | i <= j <= OperationFrom(args, i).value.0 :: j < |args| && args[j] != "--"
    decreases |args| - i
  {
    if "-" <= args[i] {
      OperationBefore(args, i + 1);
      OperationAfter(args, i + 1);
      forall j | i <= j <= OperationFrom(args, i).value.0 ensures j < |args| && args[j] != "--" {
        assert j == i || i + 1 <= j <= OperationFrom(args, i + 1).value.0;
      }
    } else {
      assert OperationFrom(args, i) == Some((i, args[i]));
    }
  }

  /** The operation stays ahead of what is put before the separator. */
  lemma OperationInserted(result: Args, prefix: string)
    requires OperationFrom(result, 0).Some?
    ensures OperationFrom(WithPrefix(result, prefix), 0) == OperationFrom(result, 0)
    ensures OperationFrom(result, 0).value.0 < Separator(result)
  {
    var end := Separator(result);
    var longer := WithPrefix(result, prefix);
    var (at, op) := OperationFrom(result, 0).value;
    OperationBefore(result, 0);
    OperationAfter(result, 0);
    assert at < end;
    OperationPrefix(result, longer, 0);
  }

  lemma {:induction false} OperationPrefix(args: Args, longer: Args, i: nat)
    requires OperationFrom(args, i).Some?
    requires forall j | i <= j <= OperationFrom(args, i).value.0 :: j < |args| && j < |longer| && longer[j] == args[j]
    ensures OperationFrom(longer, i) == OperationFrom(args, i)
    decreases |args| - i
  {
    OperationAfter(args, i);
    if "-" <= args[i] {
      OperationAfter(args, i + 1);
      OperationPrefix(args, longer, i + 1);
    }
  }

  lemma LandedCovers(result: Args, c: string, root: string)
    requires Rooted(c) && IsWithin(c, root) && OperationFrom(result, 0).Some?
    requires Reaches(result, OperationFrom(result, 0).value.0 + 1, Separator(result))
    ensures Covered(WithPrefix(result, SrcPrefix(c, root)), GuestOf(c, root))
  {
    var g, x, end := GuestOf(c, root), SrcPrefix(c, root), Separator(result);
    var longer := WithPrefix(result, x);
    var (at, op) := OperationFrom(result, 0).value;
    SrcPrefixParses(g);
    OperationInserted(result, x);
    InsertLands(result, op, at + 1, 0, end, x);
    var e := PathArg(end, "--src-prefix=", true);
    assert longer[end] == x;
    assert Fits(longer, e) && Value(longer, e) == g;
    NormalizeTwice(g);
    hide KindOf, Scan, Reaches, Parse;
    assert e in PathArgs(longer) && IsPrefix(longer, e) && Covers(longer, g, e);
  }

  lemma SwallowedUncovers(longer: Args, c: string, root: string, end: nat)
    requires Rooted(c) && IsWithin(c, root) && end < |longer| && longer[end] == SrcPrefix(c, root)
    ensures !Covers(longer, GuestOf(c, root), PathArg(end, "", true))
  {
    hide IsWithin, Absolute, GuestOf;
    SwallowedIsBelow(c, root);
    var e := PathArg(end, "", true);
    assert longer[end][|e.prefix|..] == longer[end];
  }

  lemma KeptPrefix(result: Args, longer: Args, g: string, e: PathArg, end: nat)
    requires end <= |result| && |longer| > end && (forall j | 0 <= j < end :: longer[j] == result[j])
    requires e.index < end && IsPrefix(longer, e) && Covers(longer, g, e)
    ensures IsPrefix(result, e) && Covers(result, g, e)
  {
    hide IsWithin, Absolute;
  }

  lemma ReachesItself(args: Args, i: nat)
    requires i <= |args|
    ensures Reaches(args, i, i)
  {
  }

  lemma PathArgsAre(args: Args)
    requires OperationFrom(args, 0).Some?
    ensures var (at, op) := OperationFrom(args, 0).value; PathArgs(args) == Scan(args, op, at + 1, true, 0)
  {
    hide Scan;
  }

  lemma MissedOne(result: Args, c: string, root: string, e: PathArg)
    requires Rooted(c) && IsWithin(c, root) && OperationFrom(result, 0).Some?
    requires !Reaches(result, OperationFrom(result, 0).value.0 + 1, Separator(result))
    requires !Covered(result, GuestOf(c, root))
    requires var longer := WithPrefix(result, SrcPrefix(c, root)); e in PathArgs(longer) && IsPrefix(longer, e)
    ensures !Covers(WithPrefix(result, SrcPrefix(c, root)), GuestOf(c, root), e)
  {
    hide IsWithin, Reaches, Covered, IsPrefix, Covers, PathArgs, Scan, OperationFrom, GuestOf, SrcPrefix;
    var g, x, end := GuestOf(c, root), SrcPrefix(c, root), Separator(result);
    var longer := WithPrefix(result, x);
    var (at, op) := OperationFrom(result, 0).value;
    OperationInserted(result, x);
    PathArgsAre(result);
    PathArgsAre(longer);
    assert longer[end] == x;
    ReachesItself(result, end);
    InsertMisses(result, op, at + 1, 0, end, x, e);
    if e == PathArg(end, "", true) {
      SwallowedUncovers(longer, c, root, end);
    } else if Covers(longer, g, e) {
      KeptPrefix(result, longer, g, e, end);
      CoveredBy(result, g, e);
    }
  }

  lemma MissedUncovers(result: Args, c: string, root: string)
    requires Rooted(c) && IsWithin(c, root) && OperationFrom(result, 0).Some?
    requires !Reaches(result, OperationFrom(result, 0).value.0 + 1, Separator(result))
    requires !Covered(result, GuestOf(c, root))
    ensures !Covered(WithPrefix(result, SrcPrefix(c, root)), GuestOf(c, root))
  {
    hide *;
    var longer := WithPrefix(result, SrcPrefix(c, root));
    forall e | e in PathArgs(longer) && IsPrefix(longer, e) ensures !Covers(longer, GuestOf(c, root), e) {
      MissedOne(result, c, root, e);
    }
    NotCovered(longer, GuestOf(c, root));
  }

  lemma CoveredBy(args: Args, c: string, e: PathArg)
    requires e in PathArgs(args) && IsPrefix(args, e) && Covers(args, c, e)
    ensures Covered(args, c)
  {
  }

  lemma NotCovered(args: Args, c: string)
    requires forall e | e in PathArgs(args) && IsPrefix(args, e) :: !Covers(args, c, e)
    ensures !Covered(args, c)
  {
  }

  /** A compile that names a path gains a source prefix unless it seems to have one. */
  predicate Gains(args: Args, c: string) {
    && OperationFrom(args, 0).Some? && OperationFrom(args, 0).value.1 == "compile"
    && (exists e | e in PathArgs(args) :: Named(args, e))
    && !exists e | e in PathArgs(args) :: LooksLikePrefix(args, e) && Covers(args, c, e)
  }

  /** The translated arguments as they reach the compiler. */
  function Passed(args: Args, c: string, root: string, result: Args): Args {
    if Gains(args, c) then WithPrefix(result, SrcPrefix(c, root)) else result
  }

  predicate Compiles(args: Args) {
    && OperationFrom(args, 0).Some? && OperationFrom(args, 0).value.1 == "compile"
    && exists e | e in PathArgs(args) :: Named(args, e)
  }

  lemma LooksOrIs(args: Args, c: string)
    ensures Compiles(args) ==> (Gains(args, c) <==> !Covered(args, c) && !Mistaken(args, c))
  {
    hide PathArgs, Covers;
  }

  lemma LandsIs(args: Args)
    requires OperationFrom(args, 0).Some?
    ensures Stop(args, 0) <= |args|
    ensures Lands(args) <==> Reaches(args, OperationFrom(args, 0).value.0 + 1, Stop(args, 0))
  {
    hide Reaches, OperationFrom, Stop;
    StopInside(args, 0);
  }

  lemma BeforeSeparator(result: Args)
    ensures Separator(result) <= |result| && forall j | 0 <= j < Separator(result) :: result[j] != "--"
    ensures Separator(result) == SeparatorFrom(result, 0)
  {
  }

  lemma LandsStays(args: Args, c: string, root: string, result: Args)
    requires Translated(args, c, root, result) && OperationFrom(args, 0).Some?
    ensures OperationFrom(result, 0) == OperationFrom(args, 0)
    ensures Lands(args) <==> Reaches(result, OperationFrom(args, 0).value.0 + 1, Separator(result))
  {
    hide *;
    PathArgsStay(args, c, root, result);
    TranslatedMirrors(args, c, root, result);
    StopStays(args, c, root, result, 0);
    TranslatedLength(args, c, root, result);
    LandsIs(args);
    PathArgsAre(args);
    BeforeSeparator(result);
    var (at, op) := OperationFrom(args, 0).value;
    MirrorsFrom(args, result, PathArgs(args), at + 1);
    ReachesStays(args, result, op, at + 1, 0, Separator(result));
  }

  lemma CommonRootHolds(args: Args, c: string, root: string)
    requires CommonRoot(args, c, root)
    ensures IsWithin(c, root)
  {
    hide IsWithin;
  }

  lemma CompilesHas(args: Args)
    requires Compiles(args)
    ensures OperationFrom(args, 0).Some?
  {
    hide PathArgs, OperationFrom;
  }

  lemma PassedHow(args: Args, c: string, root: string, result: Args)
    ensures Passed(args, c, root, result) == if Gains(args, c) then WithPrefix(result, SrcPrefix(c, root)) else result
  {
    hide Gains, WithPrefix, SrcPrefix;
  }

  /**
   * Exactly when a source prefix of a compile holds the guest's current
   * directory: when one of the caller's did; or else when no positional
   * argument passes for one, and no option swallows the one that is added.
   */
  lemma CoveredExactly(args: Args, c: string, root: string, result: Args)
    requires Rooted(c) && CommonRoot(args, c, root) && Translated(args, c, root, result) && Compiles(args)
    ensures Covered(Passed(args, c, root, result), GuestOf(c, root))
       <==> Covered(args, c) || (!Mistaken(args, c) && Lands(args))
  {
    hide *;
    CoveredStays(args, c, root, result);
    LooksOrIs(args, c);
    CommonRootHolds(args, c, root);
    CompilesHas(args);
    PassedHow(args, c, root, result);
    if Gains(args, c) {
      LandsStays(args, c, root, result);
      if Lands(args) {
        LandedCovers(result, c, root);
      } else {
        MissedUncovers(result, c, root);
      }
    }
  }

  lemma PlainArgument(arg: string)
    requires arg != "" && arg[0] != '-'
    ensures KindOf(arg, true) == Positional && !("-" <= arg)
  {
    assert forall s: string :: s <= arg && s != "" ==> s[0] == arg[0];
  }

  lemma OutputOption()
    ensures KindOf("-o", true) == Skip
  {
    assert "-o"[1] == 'o';
  }

  lemma StartsWithCompile(args: Args)
    requires args != [] && args[0] == "compile"
    ensures OperationFrom(args, 0) == Some((0, "compile"))
  {
    assert args[0][0] == 'c';
    PlainArgument(args[0]);
    assert OPERATIONS[0] == "compile";
  }

  // ------------------------------------------------------ the bundled include

  /** The bundled schemas come after the caller's options. */
  function WithInclude(args: Args, bundled: Option<string>): Args {
    if bundled.None? then args
    else InsertAt(args, Separator(args), ["--no-standard-import", "-I" + bundled.value])
  }

  const INCLUDE_OPERATIONS := ["compile", "encode", "decode", "eval", "convert"]

  /** needsStandardImport: otherwise the launcher bundles no include. */
  predicate NeedsStandardImport(args: Args) {
    && OperationFrom(args, 0).Some? && OperationFrom(args, 0).value.1 in INCLUDE_OPERATIONS
    && forall j | 0 <= j < Separator(args) :: args[j] !in ["--no-standard-import", "--version", "--help"]
  }

  lemma AttachedInclude(bundled: string)
    requires Rooted(bundled)
    ensures KindOf("-I" + bundled, true) == Attached("-I") && "-I" + bundled != "--"
  {
    var arg := "-I" + bundled;
    assert arg[0] == '-' && arg[1] == 'I' && |arg| > 2;
  }

  lemma NoStandardImport()
    ensures KindOf("--no-standard-import", true) == Flag
  {
    assert "--no-standard-import"[1] == '-' && "--no-standard-import"[2] == 'n';
  }

  /** Whether or not an option swallows the first of the two, the scan comes to their end. */
  lemma {:induction false} ReachesPast(args: Args, i: nat, end: nat)
    requires i <= end && end + 2 <= |args|
    requires KindOf(args[end], true).Flag? && KindOf(args[end + 1], true).Attached?
    ensures Reaches(args, i, end + 2)
    decreases end - i
  {
    hide KindOf;
    assert Reaches(args, end + 1, end + 2) by {
      assert Reaches(args, end + 2, end + 2);
    }
    if i < end && After(KindOf(args[i], true), i) <= end {
      ReachesPast(args, After(KindOf(args[i], true), i), end);
    }
  }

  lemma {:induction false} StopAt(args: Args, i: nat, end: nat)
    requires i <= end <= |args| && forall j | i <= j < end :: args[j] != "--"
    requires end == |args| || (args[end] == "--" && !IsPath(args, end))
    ensures Stop(args, i) == end
    decreases end - i
  {
    hide IsPath;
    if i < end {
      StopAt(args, i + 1, end);
    }
  }

  lemma AfterAttached(args: Args, j: nat)
    requires 0 < j < |args| && args[j] == "--" && KindOf(args[j - 1], true).Attached?
    requires forall k | 0 <= k < j :: args[k] != "--"
    ensures !IsPath(args, j)
  {
    hide KindOf, Scan;
    if OperationFrom(args, 0).Some? {
      var (at, op) := OperationFrom(args, 0).value;
      OperationBefore(args, 0);
      OperationAfter(args, 0);
      NoPathAt(args, op, at + 1, 0, j);
    }
  }

  /** The separator is a path only as the value of the option before it. */
  lemma {:induction false} NoPathAt(args: Args, op: string, i: nat, position: nat, j: nat)
    requires 0 < j < |args| && args[j] == "--" && KindOf(args[j - 1], true).Attached?
    requires forall k | 0 <= k < j :: args[k] != "--"
    ensures forall e | e in Scan(args, op, i, true, position) :: e.index != j
    decreases |args| - i
  {
    hide KindOf, PathAt, Found;
    if i < |args| {
      var k := KindOf(args[i], true);
      var next, count := After(k, i), if k.Positional? then position + 1 else position;
      FoundFits(args, op, i, true, position);
      OnlySeparator(args[i]);
      if i == j {
        Nothing(args, op, j, position);
        ScanFits(args, op, next, false, count);
      } else {
        if k == Arguments.Separator {
          ScanFits(args, op, next, false, count);
        } else {
          NoPathAt(args, op, next, count, j);
        }
        if i == j - 1 {
          FoundAttached(args, op, i, position);
        }
      }
    }
  }

  lemma OnlySeparator(arg: string)
    ensures KindOf(arg, true) == Arguments.Separator <==> arg == "--"
  {
  }

  lemma Nothing(args: Args, op: string, i: nat, position: nat)
    requires i < |args| && args[i] == "--"
    ensures Found(args, op, i, true, position) == []
  {
  }

  lemma FoundAttached(args: Args, op: string, i: nat, position: nat)
    requires i < |args| && KindOf(args[i], true).Attached?
    ensures forall e | e in Found(args, op, i, true, position) :: e.index == i
  {
  }

  lemma IncludeInserted(args: Args, bundled: string)
    requires Rooted(bundled) && OperationFrom(args, 0).Some?
    ensures
      var longer, end := WithInclude(args, Some(bundled)), Separator(args);
      && OperationFrom(longer, 0) == OperationFrom(args, 0) && OperationFrom(args, 0).value.0 < end <= |args|
      && |longer| == |args| + 2 && longer[end] == "--no-standard-import" && longer[end + 1] == "-I" + bundled
      && (forall j | 0 <= j < end :: longer[j] == args[j] && args[j] != "--")
      && (end < |args| ==> longer[end + 2] == "--")
  {
    hide OperationFrom;
    OperationInserted(args, "--no-standard-import");
    var one, end := WithPrefix(args, "--no-standard-import"), Separator(args);
    var longer := WithInclude(args, Some(bundled));
    OperationReaches(args);
    OperationPrefix(args, longer, 0);
  }

  lemma OperationReaches(args: Args)
    requires OperationFrom(args, 0).Some?
    ensures OperationFrom(args, 0).value.0 < Separator(args)
  {
    OperationInserted(args, "");
  }

  /** With the bundled include, no option can swallow the source prefix. */
  lemma IncludeLands(args: Args, bundled: string)
    requires Rooted(bundled) && OperationFrom(args, 0).Some?
    ensures Lands(WithInclude(args, Some(bundled)))
  {
    hide OperationFrom, KindOf, Reaches, Stop, IsPath, WithInclude, Separator;
    var longer, end := WithInclude(args, Some(bundled)), Separator(args);
    IncludeInserted(args, bundled);
    AttachedInclude(bundled);
    NoStandardImport();
    assert "--no-standard-import"[2] == 'n';
    assert forall j | 0 <= j < end + 2 :: longer[j] != "--";
    if end < |args| {
      AfterAttached(longer, end + 2);
    }
    StopAt(longer, 0, end + 2);
    ReachesPast(longer, OperationFrom(args, 0).value.0 + 1, end);
    LandsIs(longer);
  }

  /** So on the command line only a mistaken argument can be in the way. */
  lemma CoveredWithInclude(given: Args, bundled: string, c: string, root: string, result: Args)
    requires Rooted(c) && Rooted(bundled) && NeedsStandardImport(given)
    requires var args := WithInclude(given, Some(bundled));
             CommonRoot(args, c, root) && Translated(args, c, root, result) && Compiles(args)
    ensures var args := WithInclude(given, Some(bundled));
            Covered(Passed(args, c, root, result), GuestOf(c, root)) <==> Covered(args, c) || !Mistaken(args, c)
  {
    hide *;
    var args := WithInclude(given, Some(bundled));
    CoveredExactly(args, c, root, result);
    NeedsOperation(given);
    IncludeLands(given, bundled);
  }

  lemma NeedsOperation(args: Args)
    requires NeedsStandardImport(args)
    ensures OperationFrom(args, 0).Some?
  {
    hide OperationFrom, Separator;
  }

  // ------------------------------------------------------ where it goes wrong

  /** A dangling option swallows the prefix: the compiler gets `-o --src-prefix=...`. */
  lemma DanglingOption(c: string)
    ensures var args := ["compile", "--no-standard-import", "a.capnp", "-o"];
            && !NeedsStandardImport(args)
            && Compiles(args) && !Covered(args, c) && !Mistaken(args, c) && !Lands(args)
  {
    hide *;
    var args := ["compile", "--no-standard-import", "a.capnp", "-o"];
    OnePath(args);
    NotNeeded(args);
    Dangles(args);
    OnlyOnePath(args, c);
  }

  lemma OnlyOnePath(args: Args, c: string)
    requires args == ["compile", "--no-standard-import", "a.capnp", "-o"]
    requires OperationFrom(args, 0) == Some((0, "compile")) && PathArgs(args) == [PathArg(2, "", false)]
    ensures Compiles(args) && !Covered(args, c) && !Mistaken(args, c)
  {
    hide OperationFrom, PathArgs, Covers;
    assert Named(args, PathArg(2, "", false));
    assert forall e | e in PathArgs(args) :: e == PathArg(2, "", false);
  }

  lemma NotNeeded(args: Args)
    requires args == ["compile", "--no-standard-import", "a.capnp", "-o"]
    ensures Separator(args) == 4 && !NeedsStandardImport(args)
  {
    hide OperationFrom;
    assert args[1][2] == 'n' && args[2][0] == 'a';
    assert SeparatorFrom(args, 0) == SeparatorFrom(args, 1) == SeparatorFrom(args, 2) == SeparatorFrom(args, 3) == 4;
  }

  lemma Dangles(args: Args)
    requires args == ["compile", "--no-standard-import", "a.capnp", "-o"]
    requires OperationFrom(args, 0) == Some((0, "compile"))
    ensures !Lands(args)
  {
    hide OperationFrom, IsPath, KindOf;
    assert args[1][2] == 'n' && args[2][0] == 'a';
    StopAt(args, 0, 4);
    PlainArgument(args[2]);
    OutputOption();
    NoStandardImport();
    assert !Reaches(args, 5, 4) && !Reaches(args, 3, 4) && !Reaches(args, 2, 4) && !Reaches(args, 1, 4);
  }

  lemma OnePath(args: Args)
    requires args == ["compile", "--no-standard-import", "a.capnp", "-o"]
    ensures OperationFrom(args, 0) == Some((0, "compile")) && PathArgs(args) == [PathArg(2, "", false)]
  {
    assert args[2][0] == 'a';
    PlainArgument(args[2]);
    OutputOption();
    NoStandardImport();
    StartsWithCompile(args);
    assert Scan(args, "compile", 5, true, 1) == [];
    assert Scan(args, "compile", 3, true, 1) == [];
    assert Found(args, "compile", 2, true, 0) == [PathArg(2, "", false)];
    assert Scan(args, "compile", 2, true, 0) == [PathArg(2, "", false)];
    assert Scan(args, "compile", 1, true, 0) == [PathArg(2, "", false)];
  }

  /** A file named like the option, after the separator, makes the next one pass for a source prefix. */
  lemma StrayName(c: string, bundled: string)
    requires Rooted(c) && Rooted(bundled)
    ensures var given := ["compile", "--", "--src-prefix", "."];
            var args := WithInclude(given, Some(bundled));
            NeedsStandardImport(given) && Compiles(args) && !Covered(args, c) && Mistaken(args, c)
  {
    hide *;
    var given := ["compile", "--", "--src-prefix", "."];
    StartsWithCompile(given);
    Needed(given);
    var args := ["compile", "--no-standard-import", "-I" + bundled, "--", "--src-prefix", "."];
    Included(given, bundled, args);
    ThreePaths(args, bundled);
    Dot(c);
    OnlyMistaken(args, bundled, c);
  }

  lemma Included(given: Args, bundled: string, args: Args)
    requires given == ["compile", "--", "--src-prefix", "."] && Separator(given) == 1
    requires args == ["compile", "--no-standard-import", "-I" + bundled, "--", "--src-prefix", "."]
    ensures WithInclude(given, Some(bundled)) == args
  {
    hide Separator;
  }

  lemma OnlyMistaken(args: Args, bundled: string, c: string)
    requires args == ["compile", "--no-standard-import", "-I" + bundled, "--", "--src-prefix", "."]
    requires OperationFrom(args, 0) == Some((0, "compile")) && IsWithin(c, Absolute(c, "."))
    requires PathArgs(args) == [PathArg(2, "-I", true), PathArg(4, "", false), PathArg(5, "", false)]
    ensures Compiles(args) && !Covered(args, c) && Mistaken(args, c)
  {
    hide OperationFrom, PathArgs, Absolute, IsWithin;
    var e := PathArg(5, "", false);
    assert e in PathArgs(args) && Named(args, e) && Value(args, e) == ".";
    assert Covers(args, c, e) && LooksLikePrefix(args, e) && !IsPrefix(args, e);
    forall f | f in PathArgs(args) ensures !IsPrefix(args, f) {
    }
  }

  lemma Needed(given: Args)
    requires given == ["compile", "--", "--src-prefix", "."] && OperationFrom(given, 0) == Some((0, "compile"))
    ensures NeedsStandardImport(given) && Separator(given) == 1
  {
    assert given[0][0] == 'c' && SeparatorFrom(given, 0) == SeparatorFrom(given, 1) == 1;
    assert given[0] !in ["--no-standard-import", "--version", "--help"];
    assert INCLUDE_OPERATIONS[0] == "compile";
  }

  lemma Dot(c: string)
    requires Rooted(c)
    ensures Absolute(c, ".") == Normalize(c) && IsWithin(c, Absolute(c, "."))
  {
    NormalizeTwice(JoinPath(c, "."));
    ParseCat(c, ".");
    GuestPath.SplitSlashFree(".");
    assert ["."][1..] == [];
    assert JoinPath(c, ".") == c + "/" + ".";
    assert Parse(JoinPath(c, ".")) == Parse(c);
  }

  lemma ThreePaths(args: Args, bundled: string)
    requires Rooted(bundled) && args == ["compile", "--no-standard-import", "-I" + bundled, "--", "--src-prefix", "."]
    ensures OperationFrom(args, 0) == Some((0, "compile"))
    ensures PathArgs(args) == [PathArg(2, "-I", true), PathArg(4, "", false), PathArg(5, "", false)]
  {
    StartsWithCompile(args);
    NoStandardImport();
    AttachedInclude(bundled);
    OnlySeparator(args[3]);
    assert Scan(args, "compile", 6, false, 2) == [];
    assert Scan(args, "compile", 5, false, 1) == [PathArg(5, "", false)];
    assert Scan(args, "compile", 4, false, 0) == [PathArg(4, "", false), PathArg(5, "", false)];
    assert Scan(args, "compile", 3, true, 0) == Scan(args, "compile", 4, false, 0);
    assert Found(args, "compile", 2, true, 0) == [PathArg(2, "-I", true)];
    assert Scan(args, "compile", 2, true, 0) == [PathArg(2, "-I", true)] + Scan(args, "compile", 3, true, 0);
    assert Scan(args, "compile", 1, true, 0) == Scan(args, "compile", 2, true, 0);
  }

  // ---------------------------------------------------------- translatePaths

  datatype Outcome = Outcome(root: string, guestCwd: string, args: Args)

  datatype Problem = OtherVolume | Colons

  predicate HasColons(s: string) {
    exists i | 0 <= i < |s| - 1 :: s[i] == ':' && s[i + 1] == ':'
  }

  ghost predicate Correct(args: Args, c: string, r: Result<Outcome, Problem>) {
    match r
    case Err(e) => e == Colons && exists root :: CommonRoot(args, c, root) && HasColons(root)
    case Ok(t) =>
      && CommonRoot(args, c, t.root) && !HasColons(t.root) && t.guestCwd == GuestOf(c, t.root)
      && exists result :: Translated(args, c, t.root, result) && t.args == Passed(args, c, t.root, result)
  }

  /** The path arguments with the caller's paths. */
  ghost predicate Gathered(args: Args, c: string, s: seq<PathArg>, paths: seq<(PathArg, string)>) {
    && (forall p | p in paths :: p.0 in s && Named(args, p.0) && p.1 == Absolute(c, Value(args, p.0)))
    && (forall e | e in s && Named(args, e) :: (e, Absolute(c, Value(args, e))) in paths)
    && (forall j, k | 0 <= j < k < |paths| :: paths[j].0.index < paths[k].0.index)
  }

  ghost predicate RootsOf(args: Args, c: string, s: seq<PathArg>, roots: seq<string>) {
    && c in roots
    && (forall e | e in s && Named(args, e) :: Holder(args, c, e) in roots)
    && (forall q | q in roots :: q == c || exists e | e in s :: Named(args, e) && Holder(args, c, e) == q)
  }

  lemma GathersOne(args: Args, c: string, s: seq<PathArg>, i: nat, paths: seq<(PathArg, string)>)
    requires i < |s| && Ascending(s) && Gathered(args, c, s[..i], paths)
    ensures Gathered(args, c, s[..i + 1],
                     if Named(args, s[i]) then paths + [(s[i], Absolute(c, Value(args, s[i])))] else paths)
  {
    hide Absolute;
    assert s[..i + 1] == s[..i] + [s[i]];
    forall p | p in paths ensures p.0.index < s[i].index {
      var j :| 0 <= j < i && s[..i][j] == p.0;
    }
  }

  lemma RootsOne(args: Args, c: string, s: seq<PathArg>, i: nat, roots: seq<string>)
    requires i < |s| && RootsOf(args, c, s[..i], roots)
    ensures RootsOf(args, c, s[..i + 1], if Named(args, s[i]) then roots + [Holder(args, c, s[i])] else roots)
  {
    hide Holder;
    var more := if Named(args, s[i]) then roots + [Holder(args, c, s[i])] else roots;
    assert s[..i + 1] == s[..i] + [s[i]];
    forall q | q in more ensures q == c || exists e | e in s[..i + 1] :: Named(args, e) && Holder(args, c, e) == q {
      if q in roots && q != c {
        var e :| e in s[..i] && Named(args, e) && Holder(args, c, e) == q;
        assert e in s[..i + 1];
      } else if q != c {
        assert s[i] in s[..i + 1];
      }
    }
  }

  lemma RootsHold(args: Args, c: string, roots: seq<string>, d: string)
    requires RootsOf(args, c, PathArgs(args), roots)
    ensures Holds(roots, d) <==> AllBelow(args, c, d)
  {
    hide Absolute, Dirname, IsWithin, PathArgs;
    if Holds(roots, d) {
      forall q | q in roots ensures IsWithin(q, d) {
        var j :| 0 <= j < |roots| && roots[j] == q;
      }
    }
    if AllBelow(args, c, d) {
      forall j | 0 <= j < |roots| ensures IsWithin(roots[j], d) {
        assert roots[j] in roots;
      }
    }
  }

  lemma CommonRootFound(args: Args, c: string, roots: seq<string>, root: string)
    requires RootsOf(args, c, PathArgs(args), roots) && Rooted(root) && Holds(roots, root)
    requires forall d :: Holds(roots, d) ==> IsWithin(root, d)
    ensures CommonRoot(args, c, root)
  {
    hide IsWithin, PathArgs, RootsOf, Holds, Absolute, Dirname;
    RootsHold(args, c, roots, root);
    forall d | AllBelow(args, c, d) ensures IsWithin(root, d) {
      RootsHold(args, c, roots, d);
    }
  }

  lemma RootsAreRooted(args: Args, c: string, s: seq<PathArg>, roots: seq<string>)
    requires Rooted(c) && RootsOf(args, c, s, roots)
    ensures forall q | q in roots :: Rooted(q)
  {
    hide Absolute, Dirname, Rooted, Value;
    forall q | q in roots ensures Rooted(q) {
      if q != c {
        var e :| e in s && Named(args, e) && Holder(args, c, e) == q;
        AbsoluteRooted(c, Value(args, e));
        DirnameParses(Absolute(c, Value(args, e)));
      }
    }
  }

  /** The result after k paths. */
  ghost predicate Filled(args: Args, root: string, paths: seq<(PathArg, string)>, k: nat, result: Args)
    requires k <= |paths|
  {
    && |result| == |args|
    && (forall j | 0 <= j < |paths| :: paths[j].0.index < |args|)
    && (forall j | 0 <= j < k :: result[paths[j].0.index] == paths[j].0.prefix + GuestOf(paths[j].1, root))
    && (forall j | 0 <= j < |args| && (forall m | 0 <= m < k :: paths[m].0.index != j) :: result[j] == args[j])
  }

  lemma FilledAll(args: Args, c: string, root: string, paths: seq<(PathArg, string)>, result: Args)
    requires Gathered(args, c, PathArgs(args), paths) && Filled(args, root, paths, |paths|, result)
    ensures Translated(args, c, root, result)
  {
    hide Absolute, PathArgs, GuestOf;
    forall e | e in PathArgs(args) && Named(args, e)
      ensures result[e.index] == e.prefix + GuestOf(Absolute(c, Value(args, e)), root) {
      var j :| 0 <= j < |paths| && paths[j] == (e, Absolute(c, Value(args, e)));
    }
    forall j | 0 <= j < |args| && (forall e | e in PathArgs(args) && Named(args, e) :: e.index != j)
      ensures result[j] == args[j] {
      forall m | 0 <= m < |paths| ensures paths[m].0.index != j {
        assert paths[m] in paths;
      }
    }
  }

  lemma CoverFound(args: Args, c: string, paths: seq<(PathArg, string)>)
    requires Gathered(args, c, PathArgs(args), paths)
    ensures (exists p | p in paths :: LooksLikePrefix(args, p.0) && IsWithin(c, p.1))
       <==> (exists e | e in PathArgs(args) :: LooksLikePrefix(args, e) && Covers(args, c, e))
    ensures paths != [] <==> exists e | e in PathArgs(args) :: Named(args, e)
  {
    hide Absolute, PathArgs, IsWithin, LooksLikePrefix;
    if e :| e in PathArgs(args) && LooksLikePrefix(args, e) && Covers(args, c, e) {
      var p := (e, Absolute(c, Value(args, e)));
      assert p in paths && LooksLikePrefix(args, p.0) && IsWithin(c, p.1);
    }
    if paths != [] {
      assert paths[0] in paths && Named(args, paths[0].0);
    }
  }

  lemma NormalizedIsRooted(cwd: string)
    requires Rooted(cwd)
    ensures Rooted(Normalize(cwd))
  {
  }

  lemma NothingGathered(args: Args, c: string, s: seq<PathArg>)
    ensures Gathered(args, c, s[..0], []) && RootsOf(args, c, s[..0], [c])
  {
  }

  lemma NothingFilled(args: Args, c: string, root: string, paths: seq<(PathArg, string)>)
    requires Gathered(args, c, PathArgs(args), paths)
    ensures Filled(args, root, paths, 0, args)
  {
    hide Absolute, PathArgs;
    forall j | 0 <= j < |paths| ensures paths[j].0.index < |args| {
      assert paths[j] in paths && Named(args, paths[j].0);
    }
  }

  lemma FillsOne(args: Args, c: string, root: string, paths: seq<(PathArg, string)>, k: nat, result: Args)
    requires Gathered(args, c, PathArgs(args), paths)
    requires k < |paths| && Filled(args, root, paths, k, result)
    ensures paths[k].0.index < |result|
    ensures Filled(args, root, paths, k + 1,
                   result[paths[k].0.index := paths[k].0.prefix + GuestOf(paths[k].1, root)])
  {
    hide Absolute, PathArgs, GuestOf;
    var at := paths[k].0.index;
    var next := result[at := paths[k].0.prefix + GuestOf(paths[k].1, root)];
    forall j | 0 <= j < k ensures paths[j].0.index < at {
    }
    forall j | 0 <= j < |args| && (forall m | 0 <= m < k + 1 :: paths[m].0.index != j) ensures next[j] == args[j] {
      assert paths[k].0.index != j;
      assert forall m | 0 <= m < k :: paths[m].0.index != j;
    }
  }

  lemma PassedIs(args: Args, c: string, root: string, result: Args, paths: seq<(PathArg, string)>)
    requires Gathered(args, c, PathArgs(args), paths)
    ensures Separator(result) <= |result|
    ensures Passed(args, c, root, result) ==
            if OperationFrom(args, 0).Some? && OperationFrom(args, 0).value.1 == "compile" && paths != []
               && !exists p | p in paths :: LooksLikePrefix(args, p.0) && IsWithin(c, p.1)
            then InsertAt(result, Separator(result), ["--src-prefix=" + GuestOf(c, root)])
            else result
  {
    CoverFound(args, c, paths);
    hide LooksLikePrefix, IsWithin, Covers, Named, Gathered, PathArgs, OperationFrom, GuestOf;
  }

  method TranslatePaths(arguments: Args, cwd: string, bundled: Option<string>) returns (r: Result<Outcome, Problem>)
    requires Rooted(cwd)
    ensures Correct(WithInclude(arguments, bundled), Normalize(cwd), r)
  {
    hide Normalize, Rooted, PathArgs, Gathered, RootsOf, Holder, Filled, CommonRoot, Translated, Passed, GuestOf;
    hide IsWithin, HasColons, OperationFrom, LooksLikePrefix, Ascending, Holds;
    var c := Normalize(cwd);
    NormalizedIsRooted(cwd);
    var args := WithInclude(arguments, bundled);
    var entries := CompilerPathArguments(args);
    PathArgsFit(args);
    var roots := [c];
    var paths: seq<(PathArg, string)> := [];
    NothingGathered(args, c, entries);
    for i := 0 to |entries|
      invariant Gathered(args, c, entries[..i], paths) && RootsOf(args, c, entries[..i], roots)
      invariant roots != []
    {
      var e := entries[i];
      assert e in entries && Fits(args, e);
      GathersOne(args, c, entries, i, paths);
      RootsOne(args, c, entries, i, roots);
      if Value(args, e) != "" {
        roots := roots + [Holder(args, c, e)];
        paths := paths + [(e, Absolute(c, Value(args, e)))];
      }
    }
    assert entries[..|entries|] == entries;
    var common := CommonPath(roots);
    RootsAreRooted(args, c, entries, roots);
    if common.None? {
      return Err(OtherVolume);
    }
    var root := common.value;
    CommonRootFound(args, c, roots, root);
    if HasColons(root) {
      return Err(Colons);
    }
    var result := args;
    NothingFilled(args, c, root, paths);
    for k := 0 to |paths|
      invariant |result| == |args| && Filled(args, root, paths, k, result)
    {
      FillsOne(args, c, root, paths, k, result);
      result := result[paths[k].0.index := paths[k].0.prefix + GuestOf(paths[k].1, root)];
    }
    FilledAll(args, c, root, paths, result);
    PassedIs(args, c, root, result, paths);
    var operation := OperationFrom(args, 0);
    var passed := result;
    if operation.Some? && operation.value.1 == "compile" && paths != []
       && !exists p | p in paths :: LooksLikePrefix(args, p.0) && IsWithin(c, p.1) {
      passed := InsertAt(result, Separator(result), ["--src-prefix=" + GuestOf(c, root)]);
    }
    r := Ok(Outcome(root, GuestOf(c, root), passed));
  }
}
