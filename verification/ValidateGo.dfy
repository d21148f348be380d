/**
 * Go's validate, with its own scans: prefixes are cut at the slashes of a
 * path, and duplicates are found in a map of what was seen. It accepts what
 * validateCompile accepts.
 */
module ValidateGo {
  import opened Prelude
  import opened GuestPath
  import opened Validate
  import Staging

  const LANGUAGES: set<string> := {"c++", "rust", "go", "zig"}

  // ------------------------------------------------------------------- paths

  /** checkPath and validPath */
  method CheckPath(path: string, limits: Limits) returns (r: Option<Rejection>)
    ensures r == PathRejection(path, limits)
  {
    if Utf8Length(path) > limits.pathBytes {
      return Some(PathTooLong);
    }
    SplitForbids(path);
    if '\\' in path || '\0' in path {
      assert !Canonical(Split(path));
      return Some(NotCanonical);
    }
    SplitKeeps(path);
    var parts := Split(path);
    for i := 0 to |parts|
      invariant Canonical(parts[..i])
    {
      var part := parts[i];
      if part == "" || part == "." || part == ".." {
        assert !Component(parts[i]);
        return Some(NotCanonical);
      }
    }
    assert parts[..|parts|] == parts;
    r := None;
  }

  /** duplicated */
  method Duplicated(values: seq<string>) returns (duplicate: bool)
    ensures duplicate <==> !Distinct(values)
  {
    var seen: set<string> := {};
    for i := 0 to |values|
      invariant forall v :: v in seen <==> v in values[..i]
      invariant Distinct(values[..i])
    {
      if values[i] in seen {
        return true;
      }
      seen := seen + {values[i]};
      assert values[..i + 1] == values[..i] + [values[i]];
    }
    assert values[..|values|] == values;
    duplicate := false;
  }

  // ------------------------------------------------------------------ prefixes

  /** The scan stops here: at a slash, or at the end. */
  predicate Stops(path: string, j: nat) {
    j == |path| || (j < |path| && path[j] == '/')
  }

  /** What the prefixes cut before position i name. */
  function Cuts(path: string, i: nat): set<Name> {
    set j | 0 <= j < i && j <= |path| && Stops(path, j) :: Split(path[..j])
  }

  lemma CutNext(path: string, i: nat)
    requires i <= |path|
    ensures Cuts(path, i + 1) == if Stops(path, i) then Cuts(path, i) + {Split(path[..i])} else Cuts(path, i)
  {
    hide Split;
  }

  lemma CutsStart(path: string)
    ensures Cuts(path, 0) == {}
  {
  }

  lemma CutsGrow(path: string, i: nat, k: nat)
    requires i <= k
    ensures Cuts(path, i) <= Cuts(path, k)
  {
  }

  /** A prefix cut at a slash holds the first components, and so names a directory of the path. */
  lemma CutIsPrefix(path: string, j: nat)
    requires j < |path| && path[j] == '/'
    ensures Split(path[..j]) < Split(path)
  {
    var rest := path[j + 1..];
    assert path == path[..j] + "/" + rest;
    SplitCat(path[..j], rest);
    hide Split;
  }

  /** Every proper prefix of the components is cut at some slash. */
  lemma PrefixIsCut(path: string, n: nat) returns (j: nat)
    requires 1 <= n < |Split(path)|
    ensures j < |path| && path[j] == '/' && Split(path[..j]) == Split(path)[..n]
  {
    var parts := Split(path);
    SplitPlain(path);
    JoinSplit(path);
    SplitJoin(parts[..n]);
    JoinCat(parts[..n], parts[n..]);
    hide Split, Join;
    assert parts[..n] + parts[n..] == parts;
    var front := Join(parts[..n]);
    assert path == front + "/" + Join(parts[n..]);
    j := |front|;
    assert path[..j] == front && path[j] == '/';
  }

  /** The strings cut out of a path are the ones that its components make. */
  lemma CutsArePrefixes(path: string)
    ensures Cuts(path, |path| + 1) == Prefixes(Split(path), |Split(path)| + 1)
  {
    hide Split;
    var parts := Split(path);
    var cuts, own := Cuts(path, |path| + 1), Prefixes(parts, |parts| + 1);
    assert path[..|path|] == path;
    forall p | p in cuts ensures p in own {
      var j :| 0 <= j <= |path| && Stops(path, j) && Split(path[..j]) == p;
      if j < |path| {
        CutIsPrefix(path, j);
        SplitSome(path[..j]);
      } else {
        SplitSome(path);
      }
      PrefixesAt(parts, |parts| + 1, p);
    }
    forall p | p in own ensures p in cuts {
      PrefixesAt(parts, |parts| + 1, p);
      if |p| < |parts| {
        var j := PrefixIsCut(path, |p|);
        assert Stops(path, j) && Split(path[..j]) == p;
      } else {
        assert p == parts && Stops(path, |path|);
      }
    }
  }

  lemma SplitSome(s: string)
    ensures Split(s) != []
  {
  }

  // -------------------------------------------------------------------- mounts

  /** The scan of one name, which stops at every slash and at the end. */
  method CountNodes(name: string, seen: set<string>, entries0: nat, limits: Limits)
    returns (ok: bool, nodes: set<string>, entries: nat)
    requires entries0 <= limits.workspaceEntries
    ensures Grown(name, seen, nodes, ok) && entries - |nodes| == entries0 - |seen|
    ensures ok <==> entries <= limits.workspaceEntries
  {
    hide Split, Grown, Named, Prefixes, Cuts;
    CutsArePrefixes(name);
    CutsStart(name);
    nodes, entries := seen, entries0;
    for i := 0 to |name| + 1
      invariant entries <= limits.workspaceEntries && entries - |nodes| == entries0 - |seen|
      invariant Named(nodes) == Named(seen) + Cuts(name, i)
    {
      CutNext(name, i);
      CutsGrow(name, i + 1, |name| + 1);
      if i < |name| && name[i] != '/' {
        continue;
      }
      var node := name[..i];
      NamedAdd(nodes, node);
      if node !in nodes {
        nodes := nodes + {node};
        entries := entries + 1;
        if entries > limits.workspaceEntries {
          GrownIs(name, seen, nodes, false);
          return false, nodes, entries;
        }
      }
    }
    GrownIs(name, seen, nodes, true);
    ok := true;
  }

  /** The collision scan of one name. */
  method Blocked(name: string, files: Files) returns (blocked: bool)
    ensures blocked <==> exists a :: a in files && Split(a) < Split(name)
  {
    hide Split;
    for i := 0 to |name|
      invariant forall j | 0 <= j < i && name[j] == '/' :: name[..j] !in files
    {
      if name[i] == '/' && name[..i] in files {
        CutIsPrefix(name, i);
        return true;
      }
    }
    forall a | a in files ensures !(Split(a) < Split(name)) {
      if Split(a) < Split(name) {
        SplitSome(a);
        assert Split(a) == Split(name)[..|Split(a)|];
        var j := PrefixIsCut(name, |Split(a)|);
        JoinSplit(a);
        JoinSplit(name[..j]);
      }
    }
    blocked := false;
  }

  method AnyCollision(files: Files, sorted: seq<string>) returns (collides: bool)
    requires Staging.Enumerates(sorted, files.Keys)
    ensures collides <==> Collides(files.Keys)
  {
    hide Split;
    for k := 0 to |sorted|
      invariant forall j, a | 0 <= j < k && a in files :: !(Split(a) < Split(sorted[j]))
    {
      var blocked := Blocked(sorted[k], files);
      if blocked {
        return true;
      }
    }
    forall a, b | a in files && b in files ensures !(Split(a) < Split(b)) {
      assert b in sorted;
    }
    collides := false;
  }

  /** One file: its size is compared with what is left. */
  method ReadFile(files: Files, order: seq<string>, k: nat, limits: Limits, ghost entries0: nat, ghost bytes0: nat,
                  nodes0: set<string>, entriesSoFar: nat, bytesSoFar: nat)
    returns (r: Option<Rejection>, nodes: set<string>, entries: nat, total: nat)
    requires Staging.Enumerates(order, files.Keys) && k < |order|
    requires Counted(files, order, k, limits, entries0, bytes0, Named(nodes0), entriesSoFar, bytesSoFar)
    ensures r.None? ==> Counted(files, order, k + 1, limits, entries0, bytes0, Named(nodes), entries, total)
    ensures r.Some? ==> !MountOk(files, limits, entries0, bytes0)
  {
    hide Counted, PathOk, Nodes, Prefixes, Split, Named, Staging.Enumerates, Collides, Total, Size;
    nodes, entries, total := nodes0, entriesSoFar, bytesSoFar;
    var name := order[k];
    CountedNext(files, order, k, limits, entries0, bytes0, Named(nodes), entries, total);
    CountsHold(files, order, k, limits, entries0, bytes0, Named(nodes), entries, total);
    NamedSize(nodes);
    r := CheckPath(name, limits);
    PathRejectionIs(name, limits);
    hide PathRejection;
    if r.Some? {
      return;
    }
    var ok;
    ok, nodes, entries := CountNodes(name, nodes, entries, limits);
    NamedSize(nodes);
    if !ok {
      return Some(TooManyEntries), nodes, entries, total;
    }
    if Size(files[name]) > limits.workspaceBytes - total {
      return Some(TooManyBytes), nodes, entries, total;
    }
    total := total + Size(files[name]);
  }

  /** One mount, in the order of the sorted names. */
  method Mount(files: Files, sorted: seq<string>, limits: Limits, entries0: nat, bytes0: nat)
    returns (r: Option<Rejection>, nodes: set<string>, entries: nat, bytes: nat)
    requires Staging.Enumerates(sorted, files.Keys)
    requires entries0 <= limits.workspaceEntries && bytes0 <= limits.workspaceBytes
    ensures r.None? <==> MountOk(files, limits, entries0, bytes0)
    ensures r.None? ==> Measured(files, entries0, bytes0, Named(nodes), entries, bytes)
  {
    nodes, entries, bytes := {}, entries0, bytes0;
    NamedNone();
    NothingCounted(files, sorted, limits, entries0, bytes0);
    hide *;
    for k := 0 to |sorted|
      invariant Counted(files, sorted, k, limits, entries0, bytes0, Named(nodes), entries, bytes)
    {
      r, nodes, entries, bytes := ReadFile(files, sorted, k, limits, entries0, bytes0, nodes, entries, bytes);
      if r.Some? {
        return;
      }
    }
    var collides := AnyCollision(files, sorted);
    CountedMount(files, sorted, limits, entries0, bytes0, Named(nodes), entries, bytes);
    r := if collides then Some(Collision) else None;
  }

  // ---------------------------------------------------------- whole requests

  method CheckGenerators(languages: seq<string>, modules: set<string>) returns (r: Option<Rejection>)
    requires modules <= LANGUAGES
    ensures r.None? <==> |languages| <= 4 && Distinct(languages) && forall g <- languages :: g in modules
  {
    if |languages| > 4 {
      return Some(TooManyGenerators);
    }
    var duplicate := Duplicated(languages);
    if duplicate {
      return Some(DuplicateGenerators);
    }
    for i := 0 to |languages|
      invariant forall j | 0 <= j < i :: languages[j] in modules
    {
      if languages[i] !in LANGUAGES || languages[i] !in modules {
        return Some(GeneratorNotSupplied);
      }
    }
    r := None;
  }

  method CheckRoots(roots: seq<string>, limits: Limits) returns (r: Option<Rejection>)
    ensures r.None? <==> RootsOk(roots, limits)
  {
    hide PathOk;
    for i := 0 to |roots|
      invariant RootsOk(roots[..i], limits)
    {
      if roots[i] != "" {
        r := CheckPath(roots[i], limits);
        PathRejectionIs(roots[i], limits);
        if r.Some? {
          return;
        }
      }
    }
    r := None;
  }

  method CheckEntrypoints(entries: seq<string>, limits: Limits) returns (r: Option<Rejection>)
    ensures r.None? <==> PathsOk(entries, limits)
  {
    hide PathOk;
    for i := 0 to |entries|
      invariant PathsOk(entries[..i], limits)
    {
      r := CheckPath(entries[i], limits);
      PathRejectionIs(entries[i], limits);
      if r.Some? {
        return;
      }
    }
    r := None;
  }

  method CheckLists(r: Request, limits: Limits, modules: set<string>) returns (rejection: Option<Rejection>)
    requires modules <= LANGUAGES
    ensures rejection.None? <==> ListsOk(r, limits, modules)
  {
    hide PathOk, PathRejection, Distinct, RootsOk, PathsOk;
    rejection := CheckGenerators(r.generators, modules);
    if rejection.Some? {
      return;
    }
    if |r.importPaths| > limits.workspaceEntries {
      return Some(ImportRootCount);
    }
    rejection := CheckRoots([r.sourcePrefix] + r.importPaths, limits);
    if rejection.Some? {
      return;
    }
    var duplicate := Duplicated(r.importPaths);
    if duplicate {
      return Some(DuplicateImportPaths);
    }
    if |r.entrypoints| == 0 {
      return Some(NoEntrypoint);
    }
    if |r.entrypoints| > limits.workspaceEntries {
      return Some(EntrypointCount);
    }
    rejection := CheckEntrypoints(r.entrypoints, limits);
    if rejection.Some? {
      return;
    }
    duplicate := Duplicated(r.entrypoints);
    if duplicate {
      return Some(DuplicateEntrypoints);
    }
  }

  method CheckTargets(r: Request, sourceDirectories: set<string>, ghost nodes: set<string>) returns (rejection: Option<Rejection>)
    requires Named(nodes) == Nodes(r.files.Keys)
    requires sourceDirectories == set n | n in nodes && n !in r.files
    ensures rejection.None? <==> TargetsOk(r)
  {
    hide Nodes, Split, Named, Directory;
    for i := 0 to |r.entrypoints|
      invariant forall j | 0 <= j < i :: r.entrypoints[j] in r.files
    {
      if r.entrypoints[i] !in r.files {
        return Some(EntrypointMissing);
      }
    }
    ghost var roots := r.importPaths + [r.sourcePrefix];
    for i := 0 to |r.importPaths|
      invariant RootsFound(r.files, r.importPaths[..i])
    {
      var root := r.importPaths[i];
      DirectoriesAre(r.files, nodes, root);
      if root != "" && root !in sourceDirectories {
        assert roots[i] == root;
        return Some(ImportPathMissing);
      }
    }
    DirectoriesAre(r.files, nodes, r.sourcePrefix);
    if r.sourcePrefix != "" && r.sourcePrefix !in sourceDirectories {
      assert roots[|r.importPaths|] == r.sourcePrefix;
      return Some(SourcePrefixMissing);
    }
    assert r.importPaths[..|r.importPaths|] == r.importPaths;
    rejection := None;
  }

  /** validate, whatever order the names are sorted in */
  method ValidateRequest(r: Request, limits: Limits, modules: set<string>, sorted: seq<string>, sortedIncludes: seq<string>)
    returns (rejection: Option<Rejection>)
    requires Staging.Enumerates(sorted, r.files.Keys) && Staging.Enumerates(sortedIncludes, r.includeFiles.Keys)
    requires modules <= LANGUAGES
    ensures rejection.None? <==> Acceptable(r, limits, modules)
  {
    hide MountOk, ListsOk, TargetsOk, Staging.Enumerates, Nodes, Named;
    rejection := CheckLists(r, limits, modules);
    if rejection.Some? {
      return;
    }
    var nodes, entries, bytes;
    rejection, nodes, entries, bytes := Mount(r.files, sorted, limits, 0, 0);
    if rejection.Some? {
      return;
    }
    var sourceDirectories := set n | n in nodes && n !in r.files;
    ghost var sourceNodes := nodes;
    MountFits(r.files, limits, 0, 0);
    rejection, nodes, entries, bytes := Mount(r.includeFiles, sortedIncludes, limits, entries, bytes);
    if rejection.Some? {
      return;
    }
    rejection := CheckTargets(r, sourceDirectories, sourceNodes);
  }
}
