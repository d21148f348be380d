/**
 * The launcher's paths, on POSIX: parsing, normalization, the deepest common
 * directory, and the guest's view of a host path.
 */
module Paths {
  import opened Prelude
  import opened GuestPath

  datatype Parsed = Parsed(rooted: bool, parts: seq<string>)

  /** The components that survive: what the loop of parsePath keeps. */
  function Keep(rooted: bool, parts: seq<string>, rest: seq<string>): seq<string>
    decreases |rest|
  {
    if rest == [] then parts
    else if rest[0] == "" || rest[0] == "." then Keep(rooted, parts, rest[1..])
    else if rest[0] == ".." then
      if parts != [] && parts[|parts| - 1] != ".." then Keep(rooted, parts[..|parts| - 1], rest[1..])
      else if rooted then Keep(rooted, parts, rest[1..])
      else Keep(rooted, parts + [".."], rest[1..])
    else Keep(rooted, parts + [rest[0]], rest[1..])
  }

  predicate Rooted(path: string) {
    path != "" && path[0] == '/'
  }

  function Parse(path: string): Parsed {
    Parsed(Rooted(path), Keep(Rooted(path), [], Split(path)))
  }

  /** parsePath */
  method ParsePath(path: string) returns (parsed: Parsed)
    ensures parsed == Parse(path)
  {
    var rooted := Rooted(path);
    var parts: seq<string> := [];
    var all := Split(path);
    for i := 0 to |all|
      invariant Keep(rooted, [], all) == Keep(rooted, parts, all[i..])
    {
      var part := all[i];
      if part == "" || part == "." {
        continue;
      }
      if part == ".." {
        if |parts| > 0 && parts[|parts| - 1] != ".." {
          parts := parts[..|parts| - 1];
        } else if !rooted {
          parts := parts + [".."];
        }
        continue;
      }
      parts := parts + [part];
    }
    parsed := Parsed(rooted, parts);
  }

  function Format(p: Parsed): string {
    var text := (if p.rooted then "/" else "") + Join(p.parts);
    if text == "" then "." else text
  }

  function Normalize(path: string): string {
    Format(Parse(path))
  }

  function JoinPath(base: string, path: string): string {
    if Rooted(path) then path else base + "/" + path
  }

  // ------------------------------------------------------------ normal forms

  predicate Whole(part: string) {
    part != "" && part != "." && '/' !in part
  }

  /** Parts that parse to themselves: only a path without a root ascends, and only at its start. */
  predicate Normal(p: Parsed) {
    && (forall j | 0 <= j < |p.parts| :: Whole(p.parts[j]))
    && (forall j | 0 <= j < |p.parts| && p.parts[j] == ".." :: !p.rooted && (j > 0 ==> p.parts[j - 1] == ".."))
  }

  lemma {:induction false} SplitIsSlashFree(s: string)
    ensures forall j | 0 <= j < |Split(s)| :: '/' !in Split(s)[j]
  {
    if s != "" {
      SplitIsSlashFree(s[1..]);
    }
  }

  lemma {:induction false} KeepNormal(rooted: bool, parts: seq<string>, rest: seq<string>)
    requires Normal(Parsed(rooted, parts)) && forall j | 0 <= j < |rest| :: '/' !in rest[j]
    ensures Normal(Parsed(rooted, Keep(rooted, parts, rest)))
    decreases |rest|
  {
    if rest != [] {
      var next :=
        if rest[0] == "" || rest[0] == "." then parts
        else if rest[0] == ".." then
          if parts != [] && parts[|parts| - 1] != ".." then parts[..|parts| - 1]
          else if rooted then parts else parts + [".."]
        else parts + [rest[0]];
      assert Normal(Parsed(rooted, next));
      KeepNormal(rooted, next, rest[1..]);
    }
  }

  lemma ParseIsNormal(path: string)
    ensures Normal(Parse(path))
  {
    SplitIsSlashFree(path);
    KeepNormal(Rooted(path), [], Split(path));
  }

  lemma {:induction false} KeepWhole(rooted: bool, parts: seq<string>, rest: seq<string>)
    requires Normal(Parsed(rooted, parts + rest))
    ensures Keep(rooted, parts, rest) == parts + rest
    decreases |rest|
  {
    if rest == [] {
      assert parts + rest == parts;
    } else {
      var all := parts + rest;
      assert rest[0] == all[|parts|] && Whole(all[|parts|]);
      assert parts != [] ==> all[|parts| - 1] == parts[|parts| - 1];
      assert parts + [rest[0]] + rest[1..] == all;
      KeepWhole(rooted, parts + [rest[0]], rest[1..]);
    }
  }

  lemma {:induction false} KeepCat(rooted: bool, parts: seq<string>, a: seq<string>, b: seq<string>)
    ensures Keep(rooted, parts, a + b) == Keep(rooted, Keep(rooted, parts, a), b)
    decreases |a|
  {
    if a == [] {
      assert a + b == b;
    } else {
      assert (a + b)[1..] == a[1..] + b;
      var next :=
        if a[0] == "" || a[0] == "." then parts
        else if a[0] == ".." then
          if parts != [] && parts[|parts| - 1] != ".." then parts[..|parts| - 1]
          else if rooted then parts else parts + [".."]
        else parts + [a[0]];
      KeepCat(rooted, next, a[1..], b);
    }
  }

  /** Joining with a slash goes on from where the first path leads. */
  lemma ParseCat(a: string, b: string)
    requires a != ""
    ensures Parse(a + "/" + b) == Parsed(Rooted(a), Keep(Rooted(a), Parse(a).parts, Split(b)))
  {
    SplitCat(a, b);
    KeepCat(Rooted(a), [], Split(a), Split(b));
  }

  lemma ParseChild(path: string, name: string)
    requires path != "" && Whole(name) && name != ".."
    ensures Parse(path + "/" + name) == Parsed(Parse(path).rooted, Parse(path).parts + [name])
  {
    ParseCat(path, name);
    SplitJoin([name]);
    hide Split;
  }

  /** Going up undoes going down, whatever the path before. */
  lemma UpUndoesDown(path: string, name: string)
    requires path != "" && Whole(name) && name != ".."
    ensures Parse(path + "/" + name + "/..") == Parse(path)
  {
    ParseChild(path, name);
    ParseCat(path + "/" + name, "..");
    assert path + "/" + name + "/.." == path + "/" + name + "/" + "..";
    SplitJoin([".."]);
    assert Join([".."]) == "..";
    hide Split;
    var parts := Parse(path).parts;
    assert (parts + [name])[..|parts|] == parts;
    assert Keep(Rooted(path), parts + [name], [".."]) == Keep(Rooted(path), parts, []) == parts;
  }

  /** Reading parts back after any prefix. */
  lemma KeepJoin(rooted: bool, parts: seq<string>, rest: seq<string>)
    requires Normal(Parsed(rooted, parts + rest))
    ensures Keep(rooted, parts, Split(Join(rest))) == parts + rest
  {
    if rest == [] {
      assert Split("")[1..] == [];
      assert parts + rest == parts;
    } else {
      forall j | 0 <= j < |rest| ensures '/' !in rest[j] {
        assert rest[j] == (parts + rest)[|parts| + j];
        assert Whole((parts + rest)[|parts| + j]);
      }
      SplitJoin(rest);
      KeepWhole(rooted, parts, rest);
    }
  }

  lemma JoinStarts(parts: seq<string>)
    requires parts != [] && parts[0] != ""
    ensures Join(parts) != "" && Join(parts)[0] == parts[0][0]
  {
  }

  lemma ParseRooted(parts: seq<string>)
    requires Normal(Parsed(true, parts))
    ensures Parse("/" + Join(parts)) == Parsed(true, parts)
  {
    assert [] + parts == parts;
    KeepJoin(true, [], parts);
    hide Join, Normal;
    var text := "/" + Join(parts);
    assert text == "" + "/" + Join(parts);
    SplitCat("", Join(parts));
    KeepCat(true, [], [""], Split(Join(parts)));
    assert Keep(true, [], [""]) == [];
  }

  lemma ParseRelative(parts: seq<string>)
    requires Normal(Parsed(false, parts)) && parts != []
    ensures Join(parts) != "" && Parse(Join(parts)) == Parsed(false, parts)
  {
    assert Whole(parts[0]);
    JoinStarts(parts);
    assert [] + parts == parts;
    KeepJoin(false, [], parts);
  }

  lemma ParseDot()
    ensures Parse(".") == Parsed(false, [])
  {
    SplitSlashFree(".");
    assert ["."][1..] == [];
  }

  /** Formatting and parsing are inverse on normal forms. */
  lemma ParseFormat(p: Parsed)
    requires Normal(p)
    ensures Parse(Format(p)) == p
  {
    hide Parse, Normal;
    if p.rooted {
      ParseRooted(p.parts);
    } else if p.parts == [] {
      ParseDot();
    } else {
      ParseRelative(p.parts);
      assert "" + Join(p.parts) == Join(p.parts);
    }
  }

  lemma NormalizeTwice(path: string)
    ensures Normalize(Normalize(path)) == Normalize(path) && Parse(Normalize(path)) == Parse(path)
  {
    ParseIsNormal(path);
    ParseFormat(Parse(path));
  }

  // -------------------------------------------------------- common directory

  /** isWithin */
  predicate IsWithin(path: string, root: string) {
    Parse(path).rooted == Parse(root).rooted && Parse(root).parts <= Parse(path).parts
  }

  /** A directory that holds every path. */
  predicate Holds(paths: seq<string>, directory: string) {
    forall j | 0 <= j < |paths| :: IsWithin(paths[j], directory)
  }

  lemma NormalPrefix(p: Parsed, n: nat)
    requires Normal(p) && n <= |p.parts|
    ensures Normal(p.(parts := p.parts[..n]))
  {
  }

  /** commonPath: the deepest directory that holds every path, unless only some of them have a root. */
  method CommonPath(paths: seq<string>) returns (common: Option<string>)
    requires paths != []
    ensures common.None? <==> exists j | 0 <= j < |paths| :: Rooted(paths[j]) != Rooted(paths[0])
    ensures common.Some? ==>
              && Holds(paths, common.value) && Rooted(common.value) == Rooted(paths[0])
              && forall d :: Holds(paths, d) ==> IsWithin(common.value, d)
  {
    hide Keep, Split;
    var first := Parse(paths[0]);
    var length := |first.parts|;
    for i := 0 to |paths|
      invariant 0 <= length <= |first.parts|
      invariant forall j | 0 <= j < i :: Rooted(paths[j]) == first.rooted && first.parts[..length] <= Parse(paths[j]).parts
      invariant forall n | length < n <= |first.parts| ::
                  exists j | 0 <= j < i :: !(first.parts[..n] <= Parse(paths[j]).parts)
    {
      var other := Parse(paths[i]);
      if other.rooted != first.rooted {
        return None;
      }
      var shared := 0;
      while shared < length && shared < |other.parts| && other.parts[shared] == first.parts[shared]
        invariant 0 <= shared <= length && shared <= |other.parts|
        invariant first.parts[..shared] == other.parts[..shared]
      {
        shared := shared + 1;
      }
      forall n | shared < n <= length ensures !(first.parts[..n] <= other.parts) {
        NotPrefix(first.parts, other.parts, shared, n);
      }
      length := shared;
    }
    ParseIsNormal(paths[0]);
    NormalPrefix(first, length);
    ParseFormat(first.(parts := first.parts[..length]));
    common := Some(Format(first.(parts := first.parts[..length])));
    Deepest(paths, first, length);
  }

  lemma NotPrefix(a: seq<string>, b: seq<string>, i: nat, n: nat)
    requires i < n <= |a| && i <= |b| && (i == |b| || a[i] != b[i])
    ensures !(a[..n] <= b)
  {
    assert a[..n][i] == a[i];
  }

  lemma Deepest(paths: seq<string>, first: Parsed, length: nat)
    requires paths != [] && first == Parse(paths[0]) && length <= |first.parts|
    requires forall n | length < n <= |first.parts| ::
               exists j | 0 <= j < |paths| :: !(first.parts[..n] <= Parse(paths[j]).parts)
    ensures forall d :: Holds(paths, d) ==> Parse(d).rooted == first.rooted && Parse(d).parts <= first.parts[..length]
  {
    hide Parse;
    forall d | Holds(paths, d) ensures Parse(d).rooted == first.rooted && Parse(d).parts <= first.parts[..length] {
      var n := |Parse(d).parts|;
      assert IsWithin(paths[0], d) && Parse(d).parts == first.parts[..n];
      if n > length {
        assert false;
      }
    }
  }

  // ------------------------------------------------------------- guest paths

  /** Where the guest finds a host path, with `root` as its own root. */
  function GuestOf(path: string, root: string): string {
    var parts, n := Parse(path).parts, |Parse(root).parts|;
    "/" + Join(if n <= |parts| then parts[n..] else [])
  }

  lemma GuestParses(path: string, root: string)
    requires Rooted(path) && IsWithin(path, root)
    ensures Parse(GuestOf(path, root)) == Parsed(true, Parse(path).parts[|Parse(root).parts|..])
  {
    ParseIsNormal(path);
    var p := Parsed(true, Parse(path).parts[|Parse(root).parts|..]);
    assert forall j | 0 <= j < |p.parts| :: p.parts[j] == Parse(path).parts[|Parse(root).parts| + j];
    assert Normal(p);
    ParseFormat(p);
  }

  /** A guest path below the root is the caller's path again. */
  lemma GuestReturns(path: string, root: string)
    requires Rooted(path) && IsWithin(path, root)
    ensures Normalize(root + GuestOf(path, root)) == Normalize(path)
  {
    hide Parse, Format, Join;
    ReturnsParsed(path, root);
  }

  lemma ReturnsParsed(path: string, root: string)
    requires Rooted(path) && IsWithin(path, root)
    ensures Parse(root + GuestOf(path, root)) == Parse(path)
  {
    hide Parse, Keep, Join, Normal;
    var all, n := Parse(path).parts, |Parse(root).parts|;
    ParseIsNormal(path);
    RootedIs(path);
    RootedIs(root);
    assert all == all[..n] + all[n..] && Parse(root).parts == all[..n];
    ParseCat(root, Join(all[n..]));
    assert root + GuestOf(path, root) == root + "/" + Join(all[n..]);
    assert Parsed(true, Parse(root).parts + all[n..]) == Parse(path);
    KeepJoin(true, Parse(root).parts, all[n..]);
  }

  /** Inside the root, the guest sees the same directories hold the same paths. */
  lemma GuestWithin(path: string, directory: string, root: string)
    requires Rooted(path) && Rooted(directory) && IsWithin(path, root) && IsWithin(directory, root)
    ensures IsWithin(GuestOf(path, root), GuestOf(directory, root)) <==> IsWithin(path, directory)
  {
    hide Parse, Rooted;
    GuestParses(path, root);
    GuestParses(directory, root);
    var p, d, n := Parse(path).parts, Parse(directory).parts, |Parse(root).parts|;
    PrefixBelow(p, d, n);
    RootedIs(path);
    RootedIs(directory);
  }

  lemma RootedIs(path: string)
    ensures Parse(path).rooted == Rooted(path)
  {
  }

  lemma PrefixBelow(p: seq<string>, d: seq<string>, n: nat)
    requires n <= |p| && n <= |d| && p[..n] == d[..n]
    ensures d[n..] <= p[n..] <==> d <= p
  {
    if d[n..] <= p[n..] {
      assert d == d[..n] + d[n..] && p == p[..n] + p[n..];
    }
  }
}
