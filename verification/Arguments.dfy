/** The compiler's arguments: which of them are paths. */
module Arguments {
  import opened Prelude

  type Args = seq<string>

  const OPERATIONS := ["compile", "encode", "decode", "eval", "convert", "id"]

  // ---------------------------------------------------------------- scanning

  datatype Kind =
    | Separator
    | Next // a path follows as the next argument
    | Attached(prefix: string) // a path is attached
    | Skip // another value follows
    | Flag
    | Positional

  function KindOf(arg: string, options: bool): Kind {
    if !options then Positional
    else if arg == "--" then Separator
    else if arg == "-I" || arg == "--import-path" || arg == "--src-prefix" then Next
    else if "--import-path=" <= arg then Attached("--import-path=")
    else if "--src-prefix=" <= arg then Attached("--src-prefix=")
    else if "-I" <= arg then Attached("-I")
    else if arg == "-o" || arg == "--output" || arg == "--segment-size" then Skip
    else if "-" <= arg then Flag
    else Positional
  }

  /** compilerOperation */
  function OperationFrom(args: Args, i: nat): Option<(nat, string)>
    decreases |args| - i
  {
    if i >= |args| || args[i] == "--" then None
    else if "-" <= args[i] then OperationFrom(args, i + 1)
    else if args[i] in OPERATIONS then Some((i, args[i]))
    else None
  }

  datatype PathArg = PathArg(index: nat, prefix: string, directory: bool)

  /** Whether the operation's positional argument is a path. */
  predicate PathAt(op: string, position: nat) {
    || op == "compile"
    || (op in ["encode", "decode", "eval"] && position == 0)
    || (op == "convert" && position == 1)
  }

  /** The path at one argument, or after it. */
  function Found(args: Args, op: string, i: nat, options: bool, position: nat): seq<PathArg>
    requires i < |args|
  {
    match KindOf(args[i], options)
    case Next => if i + 1 < |args| then [PathArg(i + 1, "", true)] else []
    case Attached(prefix) => [PathArg(i, prefix, true)]
    case Positional => if PathAt(op, position) then [PathArg(i, "", false)] else []
    case _ => []
  }

  /** Where the scan goes on. */
  function After(k: Kind, i: nat): nat {
    if k.Next? || k.Skip? then i + 2 else i + 1
  }

  function Scan(args: Args, op: string, i: nat, options: bool, position: nat): seq<PathArg>
    decreases |args| - i
  {
    if i >= |args| then []
    else
      var k := KindOf(args[i], options);
      Found(args, op, i, options, position)
      + Scan(args, op, After(k, i), options && k != Separator, if k.Positional? then position + 1 else position)
  }

  function PathArgs(args: Args): seq<PathArg> {
    match OperationFrom(args, 0)
    case None => []
    case Some((i, op)) => Scan(args, op, i + 1, true, 0)
  }

  /** One turn of the loop. */
  method ScanOne(args: Args, op: string, i: nat, options: bool, position: nat)
    returns (found: seq<PathArg>, next: nat, still: bool, count: nat)
    requires i < |args|
    ensures var k := KindOf(args[i], options);
            && found == Found(args, op, i, options, position) && next == After(k, i)
            && still == (options && k != Separator) && count == if k.Positional? then position + 1 else position
  {
    hide PathAt;
    var arg := args[i];
    found, next, still, count := [], i + 1, options, position;
    if options && arg == "--" {
      still := false;
    } else if options && (arg == "-I" || arg == "--import-path" || arg == "--src-prefix") {
      next := i + 2;
      if i + 1 < |args| {
        found := [PathArg(i + 1, "", true)];
      }
    } else if options && "--import-path=" <= arg {
      found := [PathArg(i, "--import-path=", true)];
    } else if options && "--src-prefix=" <= arg {
      found := [PathArg(i, "--src-prefix=", true)];
    } else if options && "-I" <= arg {
      found := [PathArg(i, "-I", true)];
    } else if options && (arg == "-o" || arg == "--output" || arg == "--segment-size") {
      next := i + 2;
    } else if options && "-" <= arg {
    } else {
      if PathAt(op, position) {
        found := [PathArg(i, "", false)];
      }
      count := position + 1;
    }
  }

  /** compilerPathArguments */
  method CompilerPathArguments(args: Args) returns (paths: seq<PathArg>)
    ensures paths == PathArgs(args)
  {
    hide KindOf, Found, PathAt;
    var found := OperationFrom(args, 0);
    if found.None? {
      return [];
    }
    var (at, op) := found.value;
    paths := [];
    var position, options, i := 0, true, at + 1;
    while i < |args|
      invariant 0 <= position && 0 <= i
      invariant PathArgs(args) == paths + Scan(args, op, i, options, position)
      decreases |args| - i
    {
      var more, next, still, count := ScanOne(args, op, i, options, position);
      Regroup(paths, more, Scan(args, op, next, still, count));
      paths, i, options, position := paths + more, next, still, count;
    }
  }

  predicate Fits(args: Args, e: PathArg) {
    e.index < |args| && e.prefix <= args[e.index]
  }

  predicate Ascending(s: seq<PathArg>) {
    forall j, k | 0 <= j < k < |s| :: s[j].index < s[k].index
  }

  lemma FoundFits(args: Args, op: string, i: nat, options: bool, position: nat)
    requires i < |args|
    ensures var s, next := Found(args, op, i, options, position), After(KindOf(args[i], options), i);
            Ascending(s) && forall e | e in s :: Fits(args, e) && i <= e.index < next
  {
  }

  /** The paths are in order, and each is in its argument. */
  lemma {:induction false} ScanFits(args: Args, op: string, i: nat, options: bool, position: nat)
    ensures forall e | e in Scan(args, op, i, options, position) :: Fits(args, e) && i <= e.index
    ensures Ascending(Scan(args, op, i, options, position))
    decreases |args| - i
  {
    hide PathAt, KindOf, Found;
    if i < |args| {
      var k := KindOf(args[i], options);
      FoundFits(args, op, i, options, position);
      ScanFits(args, op, After(k, i), options && k != Separator, if k.Positional? then position + 1 else position);
    }
  }

  lemma PathArgsFit(args: Args)
    ensures Ascending(PathArgs(args)) && forall e | e in PathArgs(args) :: Fits(args, e)
  {
    hide Scan;
    if OperationFrom(args, 0).Some? {
      var (i, op) := OperationFrom(args, 0).value;
      ScanFits(args, op, i + 1, true, 0);
    }
  }

  // ------------------------------------------------------- what the scan finds

  lemma {:induction false} OperationFollows(args: Args, i: nat)
    ensures OperationFrom(args, i).Some? ==> OperationFrom(args, i).value.0 >= i
    decreases |args| - i
  {
    if i < |args| {
      OperationFollows(args, i + 1);
    }
  }

  /** The operation is the first argument that is no option, unless a separator comes before it. */
  lemma {:induction false} OperationIs(args: Args, i: nat, at: nat, op: string)
    requires i <= at
    ensures OperationFrom(args, i) == Some((at, op)) <==>
            && at < |args| && args[at] == op && op in OPERATIONS
            && forall j | i <= j < at :: args[j] != "" && args[j][0] == '-' && args[j] != "--"
    decreases |args| - i
  {
    if i < |args| && "-" <= args[i] && args[i] != "--" {
      if i < at {
        OperationIs(args, i + 1, at, op);
      } else {
        OperationFollows(args, i + 1);
        assert forall o | o in OPERATIONS :: o[0] != '-';
      }
    }
  }

  /** The arguments from i on that are neither options nor values of options. */
  function Operands(args: Args, i: nat, options: bool): seq<nat>
    decreases |args| - i
  {
    if i >= |args| then []
    else
      var k := KindOf(args[i], options);
      (if k.Positional? then [i] else []) + Operands(args, After(k, i), options && k != Separator)
  }

  /** The paths that are not directories. */
  function Files(s: seq<PathArg>): seq<nat> {
    if s == [] then [] else (if s[0].directory then [] else [s[0].index]) + Files(s[1..])
  }

  lemma {:induction false} FilesCat(s: seq<PathArg>, t: seq<PathArg>)
    ensures Files(s + t) == Files(s) + Files(t)
  {
    if s == [] {
      assert s + t == t;
    } else {
      assert (s + t)[1..] == s[1..] + t;
      FilesCat(s[1..], t);
    }
  }

  function ElementAt(s: seq<nat>, k: int): seq<nat> {
    if 0 <= k < |s| then [s[k]] else []
  }

  /** Which operands name files, when `position` others came before them. */
  function Chosen(op: string, operands: seq<nat>, position: nat): seq<nat> {
    match op
    case "compile" => operands
    case "encode" => ElementAt(operands, 0 - position)
    case "decode" => ElementAt(operands, 0 - position)
    case "eval" => ElementAt(operands, 0 - position)
    case "convert" => ElementAt(operands, 1 - position)
    case _ => []
  }

  lemma FoundFile(args: Args, op: string, i: nat, options: bool, position: nat)
    requires i < |args|
    ensures Files(Found(args, op, i, options, position))
         == if KindOf(args[i], options).Positional? then Chosen(op, [i], position) else []
  {
    hide KindOf;
    assert forall e: PathArg :: Files([e]) == if e.directory then [] else [e.index];
  }

  lemma ChosenCons(op: string, i: nat, operands: seq<nat>, position: nat)
    ensures Chosen(op, [i] + operands, position) == Chosen(op, [i], position) + Chosen(op, operands, position + 1)
  {
  }

  /** A compile takes every operand as a file, a query its first one, and a conversion its second. */
  lemma {:induction false} FilesAre(args: Args, op: string, i: nat, options: bool, position: nat)
    ensures Files(Scan(args, op, i, options, position)) == Chosen(op, Operands(args, i, options), position)
    decreases |args| - i
  {
    hide KindOf, Found, Files, Chosen;
    if i >= |args| {
      FilesOfNone(op, position);
    } else {
      var k := KindOf(args[i], options);
      var next, still, count := After(k, i), options && k != Separator, if k.Positional? then position + 1 else position;
      FilesAre(args, op, next, still, count);
      FoundFile(args, op, i, options, position);
      FilesCat(Found(args, op, i, options, position), Scan(args, op, next, still, count));
      var rest := Operands(args, next, still);
      ChosenCons(op, i, rest, position);
      assert Operands(args, i, options) == if k.Positional? then [i] + rest else rest;
    }
  }

  lemma FilesOfNone(op: string, position: nat)
    ensures Files([]) == Chosen(op, [], position)
  {
  }

  // ------------------------------------------------- what a translation keeps

  function Value(args: Args, e: PathArg): string
    requires Fits(args, e)
  {
    args[e.index][|e.prefix|..]
  }

  /** An empty path is left for the compiler to diagnose. */
  predicate Named(args: Args, e: PathArg) {
    Fits(args, e) && |args[e.index]| > |e.prefix|
  }

  /** The argument holds another path, and that one is absolute. */
  predicate Replaced(e: PathArg, before: string, after: string) {
    e.prefix <= before && e.prefix <= after && |after| > |e.prefix| && after[|e.prefix|] == '/'
  }

  /** Only paths changed. */
  predicate Mirrors(args: Args, result: Args, s: seq<PathArg>, i: nat) {
    && |result| == |args|
    && (forall j | i <= j < |args| && result[j] != args[j] :: exists e :: e in s && e.index == j)
    && (forall e | e in s ::
          e.index < |args|
          && (result[e.index] == args[e.index] || Replaced(e, args[e.index], result[e.index])))
  }

  lemma PositionalStays(after: string)
    requires after != "" && after[0] == '/'
    ensures KindOf(after, true) == Positional
  {
  }

  lemma IncludeStays(after: string)
    requires "-I" <= after && |after| > 2 && after[2] == '/'
    ensures KindOf(after, true) == Attached("-I")
  {
    assert after[0] == '-' && after[1] == 'I';
  }

  lemma ImportPathStays(after: string)
    requires "--import-path=" <= after
    ensures KindOf(after, true) == Attached("--import-path=")
  {
    assert |after| >= 14 && after[1] == '-' && after[2] == 'i';
  }

  lemma SrcPrefixStays(after: string)
    requires "--src-prefix=" <= after
    ensures KindOf(after, true) == Attached("--src-prefix=")
  {
    assert |after| >= 13 && after[1] == '-' && after[2] == 's';
  }

  lemma KindStays(e: PathArg, before: string, after: string, options: bool)
    requires Replaced(e, before, after)
    requires KindOf(before, options) == Attached(e.prefix) || (KindOf(before, options) == Positional && e.prefix == "")
    ensures KindOf(after, options) == KindOf(before, options)
  {
    if options {
      if KindOf(before, options) == Positional {
        PositionalStays(after);
      } else if e.prefix == "-I" {
        IncludeStays(after);
      } else if e.prefix == "--import-path=" {
        ImportPathStays(after);
      } else {
        SrcPrefixStays(after);
      }
    }
  }

  lemma FoundHere(args: Args, op: string, i: nat, options: bool, position: nat, e: PathArg)
    requires i < |args| && e in Found(args, op, i, options, position)
    ensures var k := KindOf(args[i], options);
            if k.Next? then e == PathArg(i + 1, "", true) && i + 1 < |args|
            else e.index == i && (k == Attached(e.prefix) || (k == Positional && e.prefix == "" && !e.directory))
  {
    hide KindOf, PathAt;
  }

  /** A translated argument is scanned as it was. */
  lemma SameKind(args: Args, result: Args, op: string, i: nat, options: bool, position: nat)
    requires i < |args| && Mirrors(args, result, Scan(args, op, i, options, position), i)
    ensures KindOf(result[i], options) == KindOf(args[i], options)
    ensures KindOf(args[i], options).Next? ==> result[i] == args[i]
  {
    if result[i] != args[i] {
      var k := KindOf(args[i], options);
      var found := Found(args, op, i, options, position);
      var rest := Scan(args, op, After(k, i), options && k != Separator, if k.Positional? then position + 1 else position);
      var e :| e in Scan(args, op, i, options, position) && e.index == i;
      assert e in found + rest;
      hide KindOf, Found, Scan;
      ScanFits(args, op, After(k, i), options && k != Separator, if k.Positional? then position + 1 else position);
      FoundHere(args, op, i, options, position, e);
      KindStays(e, args[i], result[i], options);
    }
  }

  lemma MirrorsRest(args: Args, result: Args, s: seq<PathArg>, t: seq<PathArg>, i: nat, next: nat)
    requires Mirrors(args, result, s + t, i) && i <= next
    requires forall e | e in s :: e.index < next
    ensures Mirrors(args, result, t, next)
  {
    forall j | next <= j < |args| && result[j] != args[j] ensures exists e :: e in t && e.index == j {
      var e :| e in s + t && e.index == j;
      assert e in t;
    }
    forall e | e in t ensures e in s + t {
    }
  }

  /** The argument before a path of its own is the option that takes it. */
  predicate OptionsStay(args: Args, result: Args, s: seq<PathArg>) {
    && |result| == |args|
    && forall e | e in s && e.prefix == "" && e.directory ::
         0 < e.index <= |args| && result[e.index - 1] == args[e.index - 1]
  }

  lemma SameFound(args: Args, result: Args, op: string, i: nat, options: bool, position: nat)
    requires |result| == |args| && i < |args| && KindOf(result[i], options) == KindOf(args[i], options)
    ensures Found(result, op, i, options, position) == Found(args, op, i, options, position)
  {
    hide KindOf, PathAt;
  }

  lemma AttachedHasPrefix(arg: string, options: bool)
    ensures KindOf(arg, options).Attached? ==> KindOf(arg, options).prefix != ""
  {
  }

  lemma FoundOption(args: Args, result: Args, op: string, i: nat, options: bool, position: nat)
    requires |result| == |args| && i < |args| && (KindOf(args[i], options).Next? ==> result[i] == args[i])
    ensures OptionsStay(args, result, Found(args, op, i, options, position))
  {
    hide KindOf, Found;
    AttachedHasPrefix(args[i], options);
    forall e | e in Found(args, op, i, options, position) && e.prefix == "" && e.directory
      ensures 0 < e.index <= |args| && result[e.index - 1] == args[e.index - 1] {
      FoundHere(args, op, i, options, position, e);
    }
  }

  lemma FoundStays(args: Args, result: Args, op: string, i: nat, options: bool, position: nat)
    requires i < |args| && Mirrors(args, result, Scan(args, op, i, options, position), i)
    ensures |result| == |args| && KindOf(result[i], options) == KindOf(args[i], options)
    ensures Found(result, op, i, options, position) == Found(args, op, i, options, position)
    ensures OptionsStay(args, result, Found(args, op, i, options, position))
  {
    hide KindOf, PathAt, Scan, Found, OptionsStay;
    SameKind(args, result, op, i, options, position);
    SameFound(args, result, op, i, options, position);
    FoundOption(args, result, op, i, options, position);
  }

  lemma OptionsCat(args: Args, result: Args, s: seq<PathArg>, t: seq<PathArg>)
    requires OptionsStay(args, result, s) && OptionsStay(args, result, t)
    ensures OptionsStay(args, result, s + t)
  {
  }

  lemma {:induction false} ScanStays(args: Args, result: Args, op: string, i: nat, options: bool, position: nat)
    requires Mirrors(args, result, Scan(args, op, i, options, position), i)
    ensures Scan(result, op, i, options, position) == Scan(args, op, i, options, position)
    ensures OptionsStay(args, result, Scan(args, op, i, options, position))
    decreases |args| - i
  {
    hide KindOf, PathAt, Found;
    assert |result| == |args|;
    if i < |args| {
      hide Mirrors, OptionsStay;
      var k := KindOf(args[i], options);
      var still, count := options && k != Separator, if k.Positional? then position + 1 else position;
      var found, rest := Found(args, op, i, options, position), Scan(args, op, After(k, i), still, count);
      FoundStays(args, result, op, i, options, position);
      FoundFits(args, op, i, options, position);
      MirrorsRest(args, result, found, rest, i, After(k, i));
      ScanStays(args, result, op, After(k, i), still, count);
      OptionsCat(args, result, found, rest);
    } else {
      assert OptionsStay(args, result, []);
    }
  }
}
