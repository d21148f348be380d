/**
 * What both SDKs accept as a compile request, as one declarative predicate,
 * and TypeScript's validateCompile, which accepts exactly that. Paths are
 * well-formed strings.
 */
module Validate {
  import opened Prelude
  import opened GuestPath
  import MemoryFs
  import Staging
  import Utf8

  type byte = MemoryFs.byte

  datatype Content = Text(text: string) | Raw(bytes: seq<byte>)

  datatype Limits = Limits(pathBytes: nat, workspaceEntries: nat, workspaceBytes: nat)

  datatype Request = Request(
    files: map<string, Content>,
    includeFiles: map<string, Content>,
    entrypoints: seq<string>,
    importPaths: seq<string>,
    sourcePrefix: string,
    generators: seq<string>)

  datatype Rejection =
    | TooManyGenerators | DuplicateGenerators | GeneratorNotSupplied
    | ImportRootCount | PathTooLong | NotCanonical | DuplicateImportPaths
    | NoEntrypoint | EntrypointCount | DuplicateEntrypoints
    | TooManyEntries | TooManyBytes | Collision
    | EntrypointMissing | ImportPathMissing | SourcePrefixMissing

  // ------------------------------------------------------------------- sizes

  function Width(c: char): nat {
    var code := c as int;
    if code < 0x80 then 1 else if code < 0x800 then 2 else if code < 0x10000 then 3 else 4
  }

  /** The bytes of the UTF-8 encoding. */
  function Utf8Length(s: string): nat {
    if s == "" then 0 else Utf8Length(s[..|s| - 1]) + Width(s[|s| - 1])
  }

  /** It is the length of what section 3 of RFC 3629 encodes. */
  lemma {:induction false} SizeIsEncoding(s: string)
    ensures Utf8Length(s) == |Utf8.Encoding(Utf8.Codes(s))|
  {
    if s != "" {
      var last := s[|s| - 1];
      SizeIsEncoding(s[..|s| - 1]);
      Utf8.EncodingSnoc(Utf8.Codes(s[..|s| - 1]), last as int);
      Utf8.LeadEncoded(last as int);
    }
  }

  /** JavaScript's `length`. */
  function Utf16Length(s: string): nat {
    if s == "" then 0 else Utf16Length(s[..|s| - 1]) + (if s[|s| - 1] as int < 0x10000 then 1 else 2)
  }

  lemma Utf16Shorter(s: string)
    ensures |s| <= Utf16Length(s) <= Utf8Length(s)
  {
    if s != "" {
      Utf16Shorter(s[..|s| - 1]);
    }
  }

  lemma {:induction false} Utf8Prefix(s: string, k: nat)
    requires k <= |s|
    ensures Utf8Length(s[..k]) <= Utf8Length(s)
    decreases |s|
  {
    if k == |s| {
      assert s[..k] == s;
    } else {
      Utf8Prefix(s[..|s| - 1], k);
      assert s[..|s| - 1][..k] == s[..k];
    }
  }

  /** `utf8Size`: exact up to the maximum, and above it whenever the text is. */
  method Utf8Size(text: string, maximum: int) returns (size: int)
    ensures size > maximum <==> Utf8Length(text) > maximum
    ensures size <= maximum ==> size == Utf8Length(text)
  {
    Utf16Shorter(text);
    if Utf16Length(text) > maximum {
      return maximum + 1;
    }
    size := 0;
    for i := 0 to |text|
      invariant size == Utf8Length(text[..i])
    {
      assert text[..i + 1][..i] == text[..i];
      size := size + Width(text[i]);
      if size > maximum {
        Utf8Prefix(text, i + 1);
        return;
      }
    }
    assert text[..|text|] == text;
  }

  function Size(c: Content): nat {
    match c
    case Text(t) => Utf8Length(t)
    case Raw(b) => |b|
  }

  // ------------------------------------------------------------------- paths

  predicate PathOk(path: string, limits: Limits) {
    Utf8Length(path) <= limits.pathBytes && Canonical(Split(path))
  }

  function PathRejection(path: string, limits: Limits): Option<Rejection> {
    if Utf8Length(path) > limits.pathBytes then Some(PathTooLong)
    else if !Canonical(Split(path)) then Some(NotCanonical)
    else None
  }

  lemma {:induction false} SplitForbids(s: string)
    ensures Forbidden(s) <==> exists j :: 0 <= j < |Split(s)| && !Plain(Split(s)[j])
  {
    if s != "" {
      SplitForbids(s[1..]);
      var rest, all := Split(s[1..]), Split(s);
      assert Forbidden(s) <==> s[0] == '\\' || s[0] == '\0' || Forbidden(s[1..]);
      if s[0] == '/' {
        forall j | 0 <= j < |rest| ensures all[j + 1] == rest[j] {
        }
      } else {
        forall j | 1 <= j < |rest| ensures all[j] == rest[j] {
        }
        assert Plain(all[0]) <==> s[0] != '\\' && s[0] != '\0' && Plain(rest[0]) by {
          SplitPlain(s[1..]);
        }
      }
      SplitPlain(s);
      SplitPlain(s[1..]);
    } else {
      assert Split(s)[0] == "";
    }
  }

  lemma {:induction false} SplitPlain(s: string)
    ensures forall j | 0 <= j < |Split(s)| :: '/' !in Split(s)[j]
  {
    if s != "" {
      SplitPlain(s[1..]);
    }
  }

  /** TypeScript's checkPath. */
  method CheckPath(path: string, limits: Limits) returns (r: Option<Rejection>)
    ensures r == PathRejection(path, limits)
  {
    var size := Utf8Size(path, limits.pathBytes);
    if size > limits.pathBytes {
      return Some(PathTooLong);
    }
    SplitForbids(path);
    if '\\' in path || '\0' in path {
      assert !Canonical(Split(path));
      return Some(NotCanonical);
    }
    SplitKeeps(path);
    var parts := Split(path);
    for i := 0 to |parts|
      invariant Canonical(parts[..i])
    {
      if parts[i] == "" || parts[i] == "." || parts[i] == ".." {
        assert !Component(parts[i]);
        return Some(NotCanonical);
      }
    }
    assert parts[..|parts|] == parts;
    r := None;
  }

  // ------------------------------------------------------------------ mounts

  type Files = map<string, Content>

  /** The names of a mount's files and of every directory above them. */
  function Nodes(keys: set<string>): set<Name> {
    set n, i | n in keys && 1 <= i <= |Split(n)| :: Split(n)[..i]
  }

  /** The first of a path's prefixes, shorter than i components. */
  function Prefixes(parts: Name, i: nat): set<Name> {
    set j | 1 <= j < i && j <= |parts| :: parts[..j]
  }

  /** A file stands where another one needs a directory. */
  ghost predicate Collides(keys: set<string>) {
    exists a, b :: a in keys && b in keys && Split(a) < Split(b)
  }

  ghost function Pick(keys: set<string>): (k: string)
    requires keys != {}
    ensures k in keys
  {
    var k :| k in keys;
    k
  }

  ghost function Total(files: Files, keys: set<string>): nat
    requires keys <= files.Keys
    decreases |keys|
  {
    if keys == {} then 0 else Size(files[Pick(keys)]) + Total(files, keys - {Pick(keys)})
  }

  lemma {:induction false} TotalRemove(files: Files, keys: set<string>, k: string)
    requires keys <= files.Keys && k in keys
    ensures Total(files, keys) == Size(files[k]) + Total(files, keys - {k})
    decreases |keys|
  {
    var j := Pick(keys);
    if j != k {
      TotalRemove(files, keys - {j}, k);
      TotalRemove(files, keys - {k}, j);
      assert keys - {j} - {k} == keys - {k} - {j};
    }
  }

  lemma TotalGrows(files: Files, keys: set<string>, more: set<string>)
    requires keys <= more <= files.Keys
    ensures Total(files, keys) <= Total(files, more)
    decreases |more|
  {
    if forall k <- more :: k in keys {
      assert keys == more;
    } else {
      var k :| k in more && k !in keys;
      TotalRemove(files, more, k);
      TotalGrows(files, keys, more - {k});
    }
  }

  /** What a mount must satisfy, given what the mounts before it counted. */
  ghost predicate MountOk(files: Files, limits: Limits, entries: nat, bytes: nat) {
    && (forall n <- files.Keys :: PathOk(n, limits))
    && !Collides(files.Keys)
    && entries + |Nodes(files.Keys)| <= limits.workspaceEntries
    && bytes + Total(files, files.Keys) <= limits.workspaceBytes
  }

  function KeysUpTo(order: seq<string>, k: nat): set<string>
    requires k <= |order|
  {
    set j | 0 <= j < k :: order[j]
  }

  lemma KeysNext(order: seq<string>, k: nat)
    requires k < |order|
    ensures KeysUpTo(order, k + 1) == KeysUpTo(order, k) + {order[k]}
  {
  }

  lemma NodesNext(keys: set<string>, n: string)
    ensures Nodes(keys + {n}) == Nodes(keys) + Prefixes(Split(n), |Split(n)| + 1)
  {
    hide Split;
    var parts := Split(n);
    forall p ensures p in Nodes(keys + {n}) <==> p in Nodes(keys) || p in Prefixes(parts, |parts| + 1) {
      NodesAt(keys + {n}, p);
      NodesAt(keys, p);
      PrefixesAt(parts, |parts| + 1, p);
    }
  }

  ghost predicate NodeOf(keys: set<string>, p: Name) {
    exists n :: n in keys && p != [] && p <= Split(n)
  }

  lemma NodesAt(keys: set<string>, p: Name)
    ensures p in Nodes(keys) <==> NodeOf(keys, p)
  {
    hide Split;
    if n :| n in keys && p != [] && p <= Split(n) {
      assert Split(n)[..|p|] == p;
    }
  }

  lemma PrefixesAt(parts: Name, i: nat, p: Name)
    ensures p in Prefixes(parts, i) <==> p != [] && p <= parts && |p| < i
  {
    if p != [] && p <= parts && |p| < i {
      assert parts[..|p|] == p;
    }
  }

  lemma PrefixesNext(parts: Name, i: nat)
    requires 1 <= i <= |parts|
    ensures Prefixes(parts, i + 1) == Prefixes(parts, i) + {parts[..i]}
  {
  }

  lemma PrefixesGrow(parts: Name, i: nat, k: nat)
    requires i <= k
    ensures Prefixes(parts, i) <= Prefixes(parts, k)
  {
  }

  lemma NodesGrow(keys: set<string>, more: set<string>)
    requires keys <= more
    ensures Nodes(keys) <= Nodes(more)
  {
  }

  lemma SmallerSet<T>(a: set<T>, b: set<T>)
    requires a <= b
    ensures |a| <= |b|
  {
    assert b == a + (b - a);
  }

  /** What a set of node strings names. */
  function Named(nodes: set<string>): set<Name> {
    set n | n in nodes :: Split(n)
  }

  lemma NamedAdd(nodes: set<string>, n: string)
    ensures Named(nodes + {n}) == Named(nodes) + {Split(n)}
    ensures n in nodes <==> Split(n) in Named(nodes)
  {
    hide Split;
    if Split(n) in Named(nodes) {
      var m :| m in nodes && Split(m) == Split(n);
      JoinSplit(m);
      JoinSplit(n);
    }
  }

  lemma {:induction false} NamedSize(nodes: set<string>)
    ensures |Named(nodes)| == |nodes|
    decreases |nodes|
  {
    hide Split, Named;
    if nodes == {} {
      NamedNone();
    } else {
      var n :| n in nodes;
      var rest := nodes - {n};
      NamedAdd(rest, n);
      NamedSize(rest);
      assert nodes == rest + {n};
    }
  }

  lemma NamedNone()
    ensures Named({}) == {}
  {
  }

  lemma NamedIs(nodes: set<string>, keys: set<string>, n: string)
    requires Named(nodes) == Nodes(keys)
    ensures n in nodes <==> Split(n) in Nodes(keys)
  {
    hide Split, Nodes;
    NamedAdd(nodes, n);
  }

  /** One path's own name and directories, counted unless already seen. */
  method CountNodes(path: string, seen: set<string>, entries0: nat, limits: Limits)
    returns (ok: bool, nodes: set<string>, entries: nat)
    requires entries0 <= limits.workspaceEntries
    ensures Grown(path, seen, nodes, ok) && entries - |nodes| == entries0 - |seen|
    ensures ok <==> entries <= limits.workspaceEntries
  {
    hide Split, Grown, Named;
    SplitPlain(path);
    var parts := Split(path);
    nodes, entries := seen, entries0;
    PrefixesStart(parts);
    for i := 1 to |parts| + 1
      invariant entries <= limits.workspaceEntries && entries - |nodes| == entries0 - |seen|
      invariant Named(nodes) == Named(seen) + Prefixes(parts, i)
    {
      var node := Join(parts[..i]);
      SplitJoin(parts[..i]);
      PrefixesNext(parts, i);
      PrefixesGrow(parts, i + 1, |parts| + 1);
      hide Prefixes;
      NamedAdd(nodes, node);
      if node !in nodes {
        nodes := nodes + {node};
        entries := entries + 1;
        if entries > limits.workspaceEntries {
          GrownIs(path, seen, nodes, false);
          return false, nodes, entries;
        }
      }
    }
    GrownIs(path, seen, nodes, true);
    ok := true;
  }

  /** The nodes of one more path were added, all of them unless a budget ended that. */
  ghost predicate Grown(path: string, seen: set<string>, nodes: set<string>, all: bool) {
    var own := Prefixes(Split(path), |Split(path)| + 1);
    && Named(seen) <= Named(nodes) <= Named(seen) + own
    && (all ==> Named(nodes) == Named(seen) + own)
  }

  lemma GrownIs(path: string, seen: set<string>, nodes: set<string>, all: bool)
    requires var own := Prefixes(Split(path), |Split(path)| + 1);
             && Named(seen) <= Named(nodes) <= Named(seen) + own
             && (all ==> Named(nodes) == Named(seen) + own)
    ensures Grown(path, seen, nodes, all)
  {
  }

  lemma PrefixesStart(parts: Name)
    ensures Prefixes(parts, 1) == {}
  {
  }

  /** A proper prefix of the path that is a file. */
  method Blocked(path: string, files: Files) returns (blocked: bool)
    requires Canonical(Split(path)) && forall n <- files.Keys :: Canonical(Split(n))
    ensures blocked <==> exists a :: a in files && Split(a) < Split(path)
  {
    var parts := Split(path);
    for i := 1 to |parts|
      invariant forall a, j | a in files && 1 <= j < i :: Split(a) != parts[..j]
    {
      PrefixString(parts, i);
      if Join(parts[..i]) in files {
        assert Split(Join(parts[..i])) < parts;
        return true;
      }
      forall a | a in files ensures Split(a) != parts[..i] {
        JoinSplit(a);
      }
    }
    assert forall a | a in files && Split(a) < parts :: |Split(a)| >= 1 && Split(a) == parts[..|Split(a)|];
    blocked := false;
  }

  lemma PrefixString(parts: seq<string>, i: nat)
    requires Canonical(parts) && 1 <= i <= |parts|
    ensures Split(Join(parts[..i])) == parts[..i]
  {
    SplitJoin(parts[..i]);
  }

  /** The collision pass over a mount whose paths are all canonical. */
  method AnyCollision(files: Files, order: seq<string>) returns (collides: bool)
    requires Staging.Enumerates(order, files.Keys) && forall n <- files.Keys :: Canonical(Split(n))
    ensures collides <==> Collides(files.Keys)
  {
    for k := 0 to |order|
      invariant forall j, a | 0 <= j < k && a in files :: !(Split(a) < Split(order[j]))
    {
      var blocked := Blocked(order[k], files);
      if blocked {
        return true;
      }
    }
    forall a, b | a in files && b in files ensures !(Split(a) < Split(b)) {
      assert b in order;
    }
    collides := false;
  }

  // ------------------------------------------------- TypeScript's two mounts

  /** The paths are right, and the counts are those of the files so far. */
  ghost predicate Counted(files: Files, order: seq<string>, k: nat, limits: Limits, entries0: nat, bytes0: nat,
                          nodes: set<Name>, entries: nat, bytes: nat)
    requires k <= |order| && Staging.Enumerates(order, files.Keys)
  {
    && (forall j | 0 <= j < k :: PathOk(order[j], limits))
    && nodes == Nodes(KeysUpTo(order, k)) && entries == entries0 + |nodes| <= limits.workspaceEntries
    && KeysUpTo(order, k) <= files.Keys
    && bytes == bytes0 + Total(files, KeysUpTo(order, k)) <= limits.workspaceBytes
  }

  lemma NothingCounted(files: Files, order: seq<string>, limits: Limits, entries0: nat, bytes0: nat)
    requires Staging.Enumerates(order, files.Keys)
    requires entries0 <= limits.workspaceEntries && bytes0 <= limits.workspaceBytes
    ensures Counted(files, order, 0, limits, entries0, bytes0, {}, entries0, bytes0)
  {
    assert KeysUpTo(order, 0) == {};
    assert Nodes({}) == {};
  }

  /** One more file is within the budgets exactly when its own checks say so. */
  lemma CountedNext(files: Files, order: seq<string>, k: nat, limits: Limits, entries0: nat, bytes0: nat,
                    nodes: set<Name>, entries: nat, bytes: nat)
    requires Staging.Enumerates(order, files.Keys) && k < |order|
    requires Counted(files, order, k, limits, entries0, bytes0, nodes, entries, bytes)
    ensures
      var path := order[k];
      var nodes' := nodes + Prefixes(Split(path), |Split(path)| + 1);
      && path in files
      && nodes' == Nodes(KeysUpTo(order, k + 1)) && |nodes'| <= |Nodes(files.Keys)|
      && (forall some | some <= nodes' :: |some| <= |Nodes(files.Keys)|)
      && bytes + Size(files[path]) <= bytes0 + Total(files, files.Keys)
      && (PathOk(path, limits) && entries0 + |nodes'| <= limits.workspaceEntries
          && bytes + Size(files[path]) <= limits.workspaceBytes ==>
            Counted(files, order, k + 1, limits, entries0, bytes0, nodes', entries0 + |nodes'|, bytes + Size(files[path])))
  {
    hide PathOk, Split, Nodes, Prefixes;
    var path, keys := order[k], KeysUpTo(order, k);
    KeysNext(order, k);
    NodesNext(keys, path);
    assert path !in keys;
    var keys' := keys + {path};
    assert keys' <= files.Keys && keys' - {path} == keys;
    TotalRemove(files, keys', path);
    TotalGrows(files, keys', files.Keys);
    NodesGrow(keys', files.Keys);
    forall some | some <= Nodes(keys') ensures |some| <= |Nodes(files.Keys)| {
      SmallerSet(some, Nodes(files.Keys));
    }
    SmallerSet(Nodes(keys'), Nodes(files.Keys));
  }

  lemma CountedAll(files: Files, order: seq<string>, limits: Limits, entries0: nat, bytes0: nat,
                   nodes: set<Name>, entries: nat, bytes: nat)
    requires Staging.Enumerates(order, files.Keys)
    requires Counted(files, order, |order|, limits, entries0, bytes0, nodes, entries, bytes)
    ensures KeysUpTo(order, |order|) == files.Keys
    ensures forall n <- files.Keys :: PathOk(n, limits)
  {
    hide PathOk;
    forall n | n in files ensures n in KeysUpTo(order, |order|) && PathOk(n, limits) {
      assert n in order;
    }
  }

  /** One file as validateCompile reads it: a text is measured without encoding it. */
  method FileTypeScript(files: Files, order: seq<string>, k: nat, limits: Limits, ghost entries0: nat, ghost bytes0: nat,
                        nodes0: set<string>, entriesSoFar: nat, bytesSoFar: nat)
    returns (r: Option<Rejection>, nodes: set<string>, entries: nat, bytes: nat)
    requires Staging.Enumerates(order, files.Keys) && k < |order|
    requires Counted(files, order, k, limits, entries0, bytes0, Named(nodes0), entriesSoFar, bytesSoFar)
    ensures r.None? ==> Counted(files, order, k + 1, limits, entries0, bytes0, Named(nodes), entries, bytes)
    ensures r.Some? ==> !MountOk(files, limits, entries0, bytes0)
  {
    hide Counted, PathOk, Nodes, Prefixes, Split, Named, Staging.Enumerates, Collides, Total, Utf8Length;
    nodes, entries, bytes := nodes0, entriesSoFar, bytesSoFar;
    var path := order[k];
    CountedNext(files, order, k, limits, entries0, bytes0, Named(nodes), entries, bytes);
    CountsHold(files, order, k, limits, entries0, bytes0, Named(nodes), entries, bytes);
    NamedSize(nodes);
    r := CheckPath(path, limits);
    PathRejectionIs(path, limits);
    hide PathRejection;
    if r.Some? {
      return;
    }
    var ok;
    ok, nodes, entries := CountNodes(path, nodes, entries, limits);
    NamedSize(nodes);
    if !ok {
      return Some(TooManyEntries), nodes, entries, bytes;
    }
    var size := ContentSize(files[path], limits.workspaceBytes - bytes);
    hide Size;
    if bytes + size > limits.workspaceBytes {
      return Some(TooManyBytes), nodes, entries, bytes;
    }
    bytes := bytes + size;
  }

  method ContentSize(contents: Content, remaining: int) returns (size: int)
    ensures size > remaining <==> Size(contents) > remaining
    ensures size <= remaining ==> size == Size(contents)
  {
    if contents.Text? {
      size := Utf8Size(contents.text, remaining);
    } else {
      size := |contents.bytes|;
    }
  }

  /** One mount as validateCompile reads it, in insertion order. */
  method MountTypeScript(files: Files, order: seq<string>, limits: Limits, entries0: nat, bytes0: nat)
    returns (r: Option<Rejection>, nodes: set<string>, entries: nat, bytes: nat)
    requires Staging.Enumerates(order, files.Keys)
    requires entries0 <= limits.workspaceEntries && bytes0 <= limits.workspaceBytes
    ensures r.None? <==> MountOk(files, limits, entries0, bytes0)
    ensures r.None? ==> Measured(files, entries0, bytes0, Named(nodes), entries, bytes)
  {
    nodes, entries, bytes := {}, entries0, bytes0;
    NamedNone();
    NothingCounted(files, order, limits, entries0, bytes0);
    hide *;
    for k := 0 to |order|
      invariant Counted(files, order, k, limits, entries0, bytes0, Named(nodes), entries, bytes)
    {
      r, nodes, entries, bytes := FileTypeScript(files, order, k, limits, entries0, bytes0, nodes, entries, bytes);
      if r.Some? {
        return;
      }
    }
    AllCanonical(files, order, limits, entries0, bytes0, Named(nodes), entries, bytes);
    var collides := AnyCollision(files, order);
    CountedMount(files, order, limits, entries0, bytes0, Named(nodes), entries, bytes);
    r := if collides then Some(Collision) else None;
  }

  /** What a mount adds to the counts. */
  ghost predicate Measured(files: Files, entries0: nat, bytes0: nat, nodes: set<Name>, entries: nat, bytes: nat) {
    && nodes == Nodes(files.Keys)
    && entries == entries0 + |nodes|
    && bytes == bytes0 + Total(files, files.Keys)
  }

  lemma AllCanonical(files: Files, order: seq<string>, limits: Limits, entries0: nat, bytes0: nat,
                     nodes: set<Name>, entries: nat, bytes: nat)
    requires Staging.Enumerates(order, files.Keys)
    requires Counted(files, order, |order|, limits, entries0, bytes0, nodes, entries, bytes)
    ensures forall n <- files.Keys :: Canonical(Split(n))
  {
    CountedAll(files, order, limits, entries0, bytes0, nodes, entries, bytes);
    hide Canonical, Split, Counted;
  }

  lemma CountedMount(files: Files, order: seq<string>, limits: Limits, entries0: nat, bytes0: nat,
                     nodes: set<Name>, entries: nat, bytes: nat)
    requires Staging.Enumerates(order, files.Keys)
    requires Counted(files, order, |order|, limits, entries0, bytes0, nodes, entries, bytes)
    ensures MountOk(files, limits, entries0, bytes0) <==> !Collides(files.Keys)
    ensures Measured(files, entries0, bytes0, nodes, entries, bytes)
  {
    CountedAll(files, order, limits, entries0, bytes0, nodes, entries, bytes);
    hide PathOk, Nodes, Total, Collides, Staging.Enumerates;
  }

  lemma CountsHold(files: Files, order: seq<string>, k: nat, limits: Limits, entries0: nat, bytes0: nat,
                   nodes: set<Name>, entries: nat, bytes: nat)
    requires Staging.Enumerates(order, files.Keys) && k <= |order|
    requires Counted(files, order, k, limits, entries0, bytes0, nodes, entries, bytes)
    ensures entries == entries0 + |nodes| <= limits.workspaceEntries && bytes <= limits.workspaceBytes
  {
  }

  lemma PathRejectionIs(path: string, limits: Limits)
    ensures PathRejection(path, limits).None? <==> PathOk(path, limits)
  {
  }

  // ---------------------------------------------------------- whole requests

  predicate Distinct<T(==)>(s: seq<T>) {
    forall i, j | 0 <= i < j < |s| :: s[i] != s[j]
  }

  function Elements<T(==)>(s: seq<T>): set<T> {
    set j | 0 <= j < |s| :: s[j]
  }

  /** TypeScript compares the size of a Set with the length of the array. */
  lemma {:induction false} DistinctBySize<T>(s: seq<T>)
    ensures |Elements(s)| <= |s|
    ensures |Elements(s)| == |s| <==> Distinct(s)
    decreases |s|
  {
    if s != [] {
      var n := |s| - 1;
      var front := s[..n];
      DistinctBySize(front);
      assert forall j | 0 <= j < n :: front[j] == s[j];
      assert Elements(s) == Elements(front) + {s[n]};
      assert s[n] in Elements(front) <==> exists j :: 0 <= j < n && s[j] == s[n];
      assert Distinct(s) <==> Distinct(front) && s[n] !in Elements(front);
    } else {
      assert Elements(s) == {};
    }
  }

  ghost predicate PathsOk(paths: seq<string>, limits: Limits) {
    forall j | 0 <= j < |paths| :: PathOk(paths[j], limits)
  }

  /** Import roots and the prefix may be empty: the mount itself. */
  ghost predicate RootsOk(paths: seq<string>, limits: Limits) {
    forall j | 0 <= j < |paths| :: paths[j] == "" || PathOk(paths[j], limits)
  }

  ghost predicate Directory(files: Files, path: string) {
    Split(path) in Nodes(files.Keys) && path !in files
  }

  ghost predicate RootsFound(files: Files, paths: seq<string>) {
    forall j | 0 <= j < |paths| :: paths[j] == "" || Directory(files, paths[j])
  }

  /** A request that both SDKs accept. No iteration order occurs in it. */
  ghost predicate Acceptable(r: Request, limits: Limits, supplied: set<string>) {
    && ListsOk(r, limits, supplied)
    && MountOk(r.files, limits, 0, 0)
    && MountOk(r.includeFiles, limits, |Nodes(r.files.Keys)|, Total(r.files, r.files.Keys))
    && TargetsOk(r)
  }

  /** What is checked before the mounts. */
  ghost predicate ListsOk(r: Request, limits: Limits, supplied: set<string>) {
    && |r.generators| <= 4 && Distinct(r.generators) && (forall g <- r.generators :: g in supplied)
    && |r.importPaths| <= limits.workspaceEntries
    && RootsOk([r.sourcePrefix] + r.importPaths, limits) && Distinct(r.importPaths)
    && 0 < |r.entrypoints| <= limits.workspaceEntries
    && PathsOk(r.entrypoints, limits) && Distinct(r.entrypoints)
  }

  /** validateGenerators and the checks of the path lists: duplicates show in the size of a Set. */
  method CheckLists(r: Request, limits: Limits, supplied: set<string>) returns (rejection: Option<Rejection>)
    ensures rejection.None? <==> ListsOk(r, limits, supplied)
  {
    hide PathOk, PathRejection, Distinct, RootsOk, PathsOk;
    if |r.generators| > 4 {
      return Some(TooManyGenerators);
    }
    DistinctBySize(r.generators);
    if |Elements(r.generators)| != |r.generators| {
      return Some(DuplicateGenerators);
    }
    if exists j :: 0 <= j < |r.generators| && r.generators[j] !in supplied {
      return Some(GeneratorNotSupplied);
    }
    if |r.importPaths| > limits.workspaceEntries {
      return Some(ImportRootCount);
    }
    rejection := CheckRoots([r.sourcePrefix] + r.importPaths, limits);
    if rejection.Some? {
      return;
    }
    DistinctBySize(r.importPaths);
    if |Elements(r.importPaths)| != |r.importPaths| {
      return Some(DuplicateImportPaths);
    }
    if |r.entrypoints| == 0 {
      return Some(NoEntrypoint);
    }
    if |r.entrypoints| > limits.workspaceEntries {
      return Some(EntrypointCount);
    }
    rejection := CheckPaths(r.entrypoints, limits);
    if rejection.Some? {
      return;
    }
    DistinctBySize(r.entrypoints);
    if |Elements(r.entrypoints)| != |r.entrypoints| {
      return Some(DuplicateEntrypoints);
    }
  }

  method CheckRoots(paths: seq<string>, limits: Limits) returns (r: Option<Rejection>)
    ensures r.None? <==> RootsOk(paths, limits)
  {
    hide PathOk;
    for i := 0 to |paths|
      invariant RootsOk(paths[..i], limits)
    {
      if paths[i] != "" {
        r := CheckPath(paths[i], limits);
        PathRejectionIs(paths[i], limits);
        if r.Some? {
          return;
        }
      }
    }
    r := None;
  }

  method CheckPaths(paths: seq<string>, limits: Limits) returns (r: Option<Rejection>)
    ensures r.None? <==> PathsOk(paths, limits)
  {
    hide PathOk;
    for i := 0 to |paths|
      invariant PathsOk(paths[..i], limits)
    {
      r := CheckPath(paths[i], limits);
      PathRejectionIs(paths[i], limits);
      if r.Some? {
        return;
      }
    }
    r := None;
  }

  /** The targets of a request against the source mount. */
  ghost predicate TargetsOk(r: Request) {
    (forall e <- r.entrypoints :: e in r.files) && RootsFound(r.files, r.importPaths + [r.sourcePrefix])
  }

  /** The nodes without a file are the directories. */
  lemma DirectoriesAre(files: Files, nodes: set<string>, path: string)
    requires Named(nodes) == Nodes(files.Keys)
    ensures Directory(files, path) <==> path in nodes && path !in files
  {
    hide Nodes, Split, Named;
    NamedIs(nodes, files.Keys, path);
  }

  method CheckTargets(r: Request, sourceDirectories: set<string>, ghost nodes: set<string>) returns (rejection: Option<Rejection>)
    requires Named(nodes) == Nodes(r.files.Keys)
    requires sourceDirectories == set n | n in nodes && n !in r.files
    ensures rejection.None? <==> TargetsOk(r)
  {
    hide Nodes, Split, Named, Directory;
    if exists j :: 0 <= j < |r.entrypoints| && r.entrypoints[j] !in r.files {
      return Some(EntrypointMissing);
    }
    var roots := r.importPaths + [r.sourcePrefix];
    for i := 0 to |roots|
      invariant RootsFound(r.files, roots[..i])
    {
      DirectoriesAre(r.files, nodes, roots[i]);
      if roots[i] != "" && roots[i] !in sourceDirectories {
        return Some(if i < |r.importPaths| then ImportPathMissing else SourcePrefixMissing);
      }
    }
    assert roots[..|roots|] == roots;
    rejection := None;
  }

  /** TypeScript's validateCompile, whatever order the names were inserted in. */
  method ValidateTypeScript(r: Request, limits: Limits, supplied: set<string>, order: seq<string>, orderIncludes: seq<string>)
    returns (rejection: Option<Rejection>)
    requires Staging.Enumerates(order, r.files.Keys) && Staging.Enumerates(orderIncludes, r.includeFiles.Keys)
    ensures rejection.None? <==> Acceptable(r, limits, supplied)
  {
    hide MountOk, ListsOk, TargetsOk, Staging.Enumerates, Nodes, Named;
    rejection := CheckLists(r, limits, supplied);
    if rejection.Some? {
      return;
    }
    var nodes, entries, bytes;
    rejection, nodes, entries, bytes := MountTypeScript(r.files, order, limits, 0, 0);
    if rejection.Some? {
      return;
    }
    var sourceDirectories := set n | n in nodes && n !in r.files;
    ghost var sourceNodes := nodes;
    MountFits(r.files, limits, 0, 0);
    rejection, nodes, entries, bytes := MountTypeScript(r.includeFiles, orderIncludes, limits, entries, bytes);
    if rejection.Some? {
      return;
    }
    rejection := CheckTargets(r, sourceDirectories, sourceNodes);
  }

  lemma MountFits(files: Files, limits: Limits, entries: nat, bytes: nat)
    requires MountOk(files, limits, entries, bytes)
    ensures entries + |Nodes(files.Keys)| <= limits.workspaceEntries
    ensures bytes + Total(files, files.Keys) <= limits.workspaceBytes
  {
  }

  // ------------------------------------------------ what acceptance is good for

  /** The caller's files by canonical name, as the filesystem stages them. */
  function ByName(files: Files, bytesOf: Content -> seq<byte>): map<Name, seq<byte>> {
    map p | p in (set n | n in files :: Split(n)) && Join(p) in files :: bytesOf(files[Join(p)])
  }

  /** An accepted mount stages as the filesystem requires, every name within the path budget. */
  lemma AcceptedStages(files: Files, limits: Limits, entries: nat, bytes: nat, bytesOf: Content -> seq<byte>)
    requires MountOk(files, limits, entries, bytes)
    ensures Staging.Compatible(ByName(files, bytesOf))
    ensures forall n <- files :: Split(n) in ByName(files, bytesOf) && |GuestPath.Text(Split(n))| <= limits.pathBytes
  {
    hide PathOk, Canonical, Split, Total, Nodes, ByName, GuestPath.Text;
    var staged := ByName(files, bytesOf);
    forall n | n in files ensures Split(n) in staged && |GuestPath.Text(Split(n))| <= limits.pathBytes {
      assert PathOk(n, limits);
      FileByName(files, limits, bytesOf, n);
    }
    forall p | p in staged ensures p in (set n | n in files :: Split(n)) && Canonical(p) && p != [] {
      NameByFile(files, limits, bytesOf, p);
    }
    forall a, b | a in staged && b in staged ensures !(a < b) {
      var n :| n in files && Split(n) == a;
      var m :| m in files && Split(m) == b;
    }
  }

  lemma FileByName(files: Files, limits: Limits, bytesOf: Content -> seq<byte>, n: string)
    requires n in files && PathOk(n, limits)
    ensures Split(n) in ByName(files, bytesOf) && |GuestPath.Text(Split(n))| <= limits.pathBytes
  {
    JoinSplit(n);
    Utf16Shorter(n);
    hide Split, Utf8Length;
  }

  lemma NameByFile(files: Files, limits: Limits, bytesOf: Content -> seq<byte>, p: Name)
    requires forall n <- files.Keys :: PathOk(n, limits)
    requires p in ByName(files, bytesOf)
    ensures p in (set n | n in files :: Split(n)) && Canonical(p) && p != []
  {
    hide Split, Utf8Length;
    var n :| n in files && Split(n) == p;
    assert PathOk(n, limits);
  }

  /** The entries a validator counts are the nodes the filesystem stages, but for the root. */
  lemma CountedEntriesAreStaged(files: Files, bytesOf: Content -> seq<byte>, f: MemoryFs.Fs)
    requires forall n <- files.Keys :: Canonical(Split(n))
    requires Staging.Staged(f, ByName(files, bytesOf))
    ensures f.names.Keys == Nodes(files.Keys) + {[]}
    ensures |f.names| == |Nodes(files.Keys)| + 1
  {
    var staged := ByName(files, bytesOf);
    forall p ensures p in f.names <==> p in Nodes(files.Keys) || p == [] {
      NodesAt(files.Keys, p);
      if n :| n in files && p <= Split(n) {
        JoinSplit(n);
        assert Split(n) in staged;
      }
    }
    assert [] !in Nodes(files.Keys) by {
      NodesAt(files.Keys, []);
    }
    assert f.names.Keys == Nodes(files.Keys) + {[]};
    assert |f.names| == |f.names.Keys|;
  }
}
