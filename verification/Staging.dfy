/** How a validated request becomes the filesystems that its guest sees. */
module Staging {
  import opened Prelude
  import opened GuestPath
  import opened MemoryFs
  import MemoryFsObjects

  /** No file is where another one needs a directory. */
  ghost predicate Compatible(files: map<Name, seq<byte>>) {
    && (forall n <- files :: Canonical(n) && n != [])
    && (forall a, b | a in files && b in files :: !(a < b))
  }

  ghost predicate Enumerates<T>(order: seq<T>, s: set<T>) {
    && (forall j | 0 <= j < |order| :: order[j] in s)
    && (forall x <- s :: x in order)
    && (forall i, j | 0 <= i < j < |order| :: order[i] != order[j])
  }

  /** The root, the files, and every directory above them: nothing else. */
  ghost predicate Staged(f: Fs, files: map<Name, seq<byte>>) {
    Entries(f.names, f.nodes, files) && f.created == 0 && f.limit.None?
  }

  ghost predicate Entries(names: map<Name, nat>, nodes: seq<Node>, files: map<Name, seq<byte>>) {
    && (forall p <- names :: names[p] < |nodes|)
    && (forall p :: p in names <==> p == [] || exists n :: n in files && p <= n)
    && (forall n <- files :: n in names && nodes[names[n]] == Node(files[n], false))
    && (forall p <- names :: p !in files ==> nodes[names[p]].dir)
  }

  /** What should be there after the first k files, and the directories of the next one down to depth i. */
  ghost predicate Wanted(order: seq<Name>, k: nat, i: nat, p: Name)
    requires k <= |order|
  {
    p == [] || (exists j :: 0 <= j < k && p <= order[j]) || (k < |order| && |p| < i && p <= order[k])
  }

  ghost predicate Partly(f: Fs, files: map<Name, seq<byte>>, order: seq<Name>, k: nat, i: nat)
    requires k <= |order|
  {
    && Typed(f)
    && (forall p :: p in f.names <==> Wanted(order, k, i, p))
    && (forall j | 0 <= j < k :: order[j] in files && IsFile(f, order[j]) && f.nodes[f.names[order[j]]].data == files[order[j]])
    && (forall p <- f.names :: p !in order[..k] ==> IsDir(f, p))
    && f.created == 0 && f.limit.None?
  }

  /** The directories above the next file. */
  method AddDirectories(fs: MemoryFsObjects.FileSystem, files: map<Name, seq<byte>>, order: seq<Name>, k: nat)
    requires Compatible(files) && Enumerates(order, files.Keys) && k < |order| && order[k] != []
    requires fs.Valid() && Partly(fs.View(), files, order, k, 0)
    modifies fs`names, fs`nodes, fs`used
    ensures fs.Valid() && Partly(fs.View(), files, order, k, |order[k]|)
  {
    hide Compatible, Enumerates, Partly, Add;
    var n := order[k];
    PartlyStart(fs.View(), files, order, k);
    for i := 1 to |n|
      invariant fs.Valid() && Partly(fs.View(), files, order, k, i)
    {
      ghost var before := fs.View();
      if n[..i] !in fs.names {
        fs.Add(n[..i], true, []);
      }
      PartlyDir(before, fs.View(), files, order, k, i);
    }
  }

  /** `newMemoryFS` */
  method NewMemoryFs(files: map<Name, seq<byte>>, order: seq<Name>, readOnly: bool, limits: Limits)
    returns (fs: MemoryFsObjects.FileSystem)
    requires Compatible(files) && Enumerates(order, files.Keys)
    ensures fresh(fs) && fs.Valid()
    ensures Staged(fs.View(), files) && fs.View().readOnly == readOnly && fs.View().limits == limits
  {
    OrderIn(files, order);
    hide Compatible, Enumerates, Partly, Staged, Add, Empty;
    fs := new MemoryFsObjects.FileSystem(limits);
    EmptyPartly(limits, files, order);
    for k := 0 to |order|
      invariant fresh(fs) && fs.Valid() && !fs.readOnly
      invariant Partly(fs.View(), files, order, k, 0)
    {
      AddDirectories(fs, files, order, k);
      ghost var before := fs.View();
      fs.Add(order[k], false, files[order[k]]);
      PartlyFile(before, fs.View(), files, order, k);
    }
    PartlyAll(fs.View(), files, order);
    SealedStaged(fs.View(), files);
    if readOnly {
      fs.Seal();
    }
  }

  lemma OrderIn(files: map<Name, seq<byte>>, order: seq<Name>)
    requires Compatible(files) && Enumerates(order, files.Keys)
    ensures forall j | 0 <= j < |order| :: order[j] in files && order[j] != []
  {
  }

  lemma EmptyPartly(limits: Limits, files: map<Name, seq<byte>>, order: seq<Name>)
    ensures Partly(Empty(false, limits), files, order, 0, 0)
  {
    assert order[..0] == [];
  }

  lemma SealedStaged(f: Fs, files: map<Name, seq<byte>>)
    requires Staged(f, files)
    ensures Staged(f.(readOnly := true), files)
  {
    hide Entries;
  }

  lemma PartlyStart(f: Fs, files: map<Name, seq<byte>>, order: seq<Name>, k: nat)
    requires k < |order|
    requires Partly(f, files, order, k, 0)
    ensures Partly(f, files, order, k, 1)
  {
    assert forall p :: Wanted(order, k, 0, p) <==> Wanted(order, k, 1, p);
  }

  lemma WantedDir(order: seq<Name>, k: nat, i: nat, q: Name)
    requires k < |order| && 1 <= i < |order[k]|
    ensures Wanted(order, k, i + 1, q) <==> Wanted(order, k, i, q) || q == order[k][..i]
  {
  }

  lemma WantedFile(order: seq<Name>, k: nat, q: Name)
    requires k < |order| && |order[k]| > 0
    ensures Wanted(order, k + 1, 0, q) <==> Wanted(order, k, |order[k]|, q) || q == order[k]
  {
    var n := order[k];
    if q <= n {
      assert 0 <= k < k + 1 && q <= order[k];
      assert |q| == |n| ==> q == n;
    }
  }

  lemma PartlyDir(f: Fs, f': Fs, files: map<Name, seq<byte>>, order: seq<Name>, k: nat, i: nat)
    requires Compatible(files) && Enumerates(order, files.Keys) && k < |order|
    requires 1 <= i < |order[k]|
    requires Partly(f, files, order, k, i)
    requires var p := order[k][..i]; f' == if p in f.names then f else Add(f, p, true, [])
    ensures Partly(f', files, order, k, i + 1)
  {
    var p, next := order[k][..i], i + 1;
    assert p !in order[..k] by {
      assert p < order[k];
    }
    assert Typed(f);
    hide Compatible, Enumerates, Add;
    forall q ensures Wanted(order, k, next, q) <==> Wanted(order, k, i, q) || q == p {
      WantedDir(order, k, i, q);
    }
    hide Wanted;
    AddGrows(f, p, true, []);
    PartlyDeeper(f, f', files, order, k, i, next, p);
  }

  lemma PartlyDeeper(f: Fs, f': Fs, files: map<Name, seq<byte>>, order: seq<Name>, k: nat, i: nat, next: nat, p: Name)
    requires k < |order| && p !in order[..k]
    requires Partly(f, files, order, k, i)
    requires if p in f.names then f' == f else Grown(f, f', p, Node([], true))
    requires forall q :: Wanted(order, k, next, q) <==> Wanted(order, k, i, q) || q == p
    ensures Partly(f', files, order, k, next)
  {
    hide Wanted;
    if p !in f.names {
      assert forall q <- f.names :: q in f'.names;
    }
  }

  /** One more name, with its node; every other name keeps its own. */
  ghost predicate Grown(f: Fs, f': Fs, p: Name, node: Node) {
    && Typed(f) && Typed(f')
    && (forall q :: q in f'.names <==> q in f.names || q == p)
    && (forall q <- f'.names :: f'.nodes[f'.names[q]] == if q == p then node else f.nodes[f.names[q]])
    && f'.created == f.created && f'.limit == f.limit
  }

  lemma AddGrows(f: Fs, p: Name, dir: bool, data: seq<byte>)
    requires Typed(f)
    ensures Grown(f, Add(f, p, dir, data), p, Node(data, dir))
  {
  }

  lemma PartlyFile(f: Fs, f': Fs, files: map<Name, seq<byte>>, order: seq<Name>, k: nat)
    requires Compatible(files) && Enumerates(order, files.Keys) && k < |order|
    requires Partly(f, files, order, k, |order[k]|)
    requires f' == Add(f, order[k], false, files[order[k]])
    ensures Partly(f', files, order, k + 1, 0)
  {
    hide *;
    var n, next := order[k], k + 1;
    OrderIn(files, order);
    OrderFresh(files, order, k);
    PartlyTyped(f, files, order, k, |n|);
    AddGrows(f, n, false, files[n]);
    assert order[..next] == order[..k] + [n];
    forall q ensures Wanted(order, next, 0, q) <==> Wanted(order, k, |n|, q) || q == n {
      WantedFile(order, k, q);
    }
    PartlyNext(f, f', files, order, k, next, |n|);
  }

  lemma OrderFresh(files: map<Name, seq<byte>>, order: seq<Name>, k: nat)
    requires Enumerates(order, files.Keys) && k < |order|
    ensures forall j | 0 <= j < k :: order[j] != order[k]
  {
  }

  lemma PartlyTyped(f: Fs, files: map<Name, seq<byte>>, order: seq<Name>, k: nat, i: nat)
    requires k < |order| && Partly(f, files, order, k, i)
    ensures Typed(f)
  {
    hide Wanted;
  }

  lemma PartlyNext(f: Fs, f': Fs, files: map<Name, seq<byte>>, order: seq<Name>, k: nat, next: nat, i: nat)
    requires k < |order| && order[k] in files && next == k + 1
    requires forall j | 0 <= j < k :: order[j] != order[k]
    requires Partly(f, files, order, k, i)
    requires Grown(f, f', order[k], Node(files[order[k]], false))
    requires forall q :: Wanted(order, next, 0, q) <==> Wanted(order, k, i, q) || q == order[k]
    requires order[..next] == order[..k] + [order[k]]
    ensures Partly(f', files, order, next, 0)
  {
    hide Wanted;
    assert forall q <- f.names :: q in f'.names;
  }

  lemma PartlyAll(f: Fs, files: map<Name, seq<byte>>, order: seq<Name>)
    requires Enumerates(order, files.Keys)
    requires Partly(f, files, order, |order|, 0)
    ensures Staged(f, files)
  {
    forall p ensures p in f.names <==> p == [] || exists n :: n in files && p <= n {
      assert p in f.names <==> Wanted(order, |order|, 0, p);
      if n :| n in files && p <= n {
        assert n in order;
      }
    }
    forall n | n in files ensures n in f.names && f.nodes[f.names[n]] == Node(files[n], false) {
      assert n in order;
    }
    assert order[..|order|] == order;
  }

  // ------------------------------------------------------------------- root

  function Mounts(names: set<Name>, prefix: string): set<Name> {
    set n | n in names && n != [] :: [prefix] + n
  }

  lemma MountsHas(names: set<Name>, prefix: string, m: Name)
    ensures m in Mounts(names, prefix) <==> |m| > 1 && m[0] == prefix && m[1..] in names
  {
    if |m| > 1 && m[0] == prefix && m[1..] in names {
      assert m == [prefix] + m[1..];
    }
    if m in Mounts(names, prefix) {
      var n :| n in names && n != [] && m == [prefix] + n;
      assert m[1..] == n;
    }
  }

  /** A mount's nodes under one prefix of the root; its node i becomes base + i. */
  function Mounted(f: Fs, prefix: string, base: nat): (r: map<Name, nat>)
    requires Typed(f)
    ensures forall m <- r :: r[m] < base + |f.nodes|
  {
    assert forall m :: m in Mounts(f.names.Keys, prefix) ==> |m| > 1 && m[1..] in f.names by {
      forall m {
        MountsHas(f.names.Keys, prefix, m);
      }
    }
    map m | m in Mounts(f.names.Keys, prefix) :: base + f.names[m[1..]]
  }

  lemma MountedHas(f: Fs, prefix: string, base: nat, m: Name)
    requires Typed(f)
    ensures var r := Mounted(f, prefix, base);
            && (m in r <==> |m| > 1 && m[0] == prefix && m[1..] in f.names)
            && (m in r ==> r[m] == base + f.names[m[1..]])
  {
    MountsHas(f.names.Keys, prefix, m);
    hide Mounts;
  }

  /** The prefix itself, and the mount's nodes below it. */
  function Mount(r: Fs, prefix: string, f: Fs): (r': Fs)
    requires Typed(r) && Typed(f)
    ensures Typed(r')
  {
    var r1 := Add(r, [prefix], true, []);
    r1.(names := r1.names + Mounted(f, prefix, |r1.nodes|), nodes := r1.nodes + f.nodes)
  }

  /** `newRootFS`: both mounts again, under src and include. */
  function NewRoot(source: Fs, included: Fs, limits: Limits): (r: Fs)
    requires Typed(source) && Typed(included)
    ensures Typed(r)
  {
    Mount(Mount(Empty(true, limits), "src", source), "include", included)
  }

  const reading: Flags := Flags(false, false, false, false, false, false, false)

  lemma MountAt(r: Fs, prefix: string, f: Fs, n: Name)
    requires Typed(r) && Typed(f)
    requires n != [] && n in f.names
    ensures var r' := Mount(r, prefix, f);
            [prefix] + n in r'.names && r'.nodes[r'.names[[prefix] + n]] == f.nodes[f.names[n]]
  {
    var m := [prefix] + n;
    assert m[1..] == n;
    MountedHas(f, prefix, |r.nodes| + 1, m);
    hide Mounted;
  }

  /** A later mount leaves what is below another prefix alone. */
  lemma MountElsewhere(r: Fs, prefix: string, f: Fs, m: Name)
    requires Typed(r) && Typed(f)
    requires m in r.names && |m| > 1 && m[0] != prefix
    ensures var r' := Mount(r, prefix, f);
            m in r'.names && r'.nodes[r'.names[m]] == r.nodes[r.names[m]]
  {
    MountedHas(f, prefix, |r.nodes| + 1, m);
    hide Mounted;
  }

  lemma MountedAt(source: Fs, included: Fs, limits: Limits, n: Name, first: bool)
    requires Typed(source) && Typed(included)
    requires n != [] && n in (if first then source else included).names
    ensures
      var f := if first then source else included;
      var r := NewRoot(source, included, limits);
      var m := [if first then "src" else "include"] + n;
      m in r.names && r.nodes[r.names[m]] == f.nodes[f.names[n]]
  {
    assert "src"[0] != "include"[0];
    hide Mount;
    var r1 := Mount(Empty(true, limits), "src", source);
    if first {
      MountAt(Empty(true, limits), "src", source, n);
      MountElsewhere(r1, "include", included, ["src"] + n);
    } else {
      MountAt(r1, "include", included, n);
    }
  }

  lemma RootFields(source: Fs, included: Fs, limits: Limits)
    requires Typed(source) && Typed(included)
    ensures NewRoot(source, included, limits).limits == limits && NewRoot(source, included, limits).readOnly
  {
  }

  lemma MountSplit(prefix: string, n: Name)
    requires '/' !in prefix && Canonical(n) && n != []
    ensures Split("/" + prefix + "/" + Text(n)) == [""] + ([prefix] + n)
  {
    var path := "/" + prefix + "/" + Text(n);
    assert path == "" + "/" + (prefix + "/" + Text(n));
    SplitAfter("", prefix + "/" + Text(n));
    SplitAfter(prefix, Text(n));
    SplitText(n);
  }

  lemma MountPath(prefix: string, n: Name)
    requires prefix == "src" || prefix == "include"
    requires Canonical(n) && n != []
    ensures Walk([], Split("/" + prefix + "/" + Text(n))) == Some([prefix] + n)
    ensures !Forbidden("/" + prefix + "/" + Text(n))
  {
    assert Component(prefix) by {
      assert "src"[0] == 's' && "include"[0] == 'i' && |prefix| >= 3;
    }
    MountSplit(prefix, n);
    JoinAllowed(n);
    CanonicalCons(prefix, n);
    var name := [prefix] + n;
    WalkComponents([], name);
    hide Split, Join, Component, Canonical;
    assert ([""] + name)[1..] == name;
    assert [] + name == name;
  }

  lemma MountResolve(prefix: string, n: Name, maximum: nat)
    requires prefix == "src" || prefix == "include"
    requires Canonical(n) && n != []
    requires |"/" + prefix + "/" + Text(n)| <= maximum
    ensures Resolve("/" + prefix + "/" + Text(n), maximum) == Ok([prefix] + n)
  {
    MountPath(prefix, n);
    hide Walk, Split, Forbidden, Text, Canonical;
  }

  lemma CanonicalCons(part: string, n: Name)
    requires Component(part) && Canonical(n)
    ensures Canonical([part] + n)
  {
  }

  /** A read-only open of the path succeeds, changes nothing, and reads these bytes. */
  ghost predicate OpensAs(f: Fs, path: string, bytes: seq<byte>)
    requires Typed(f)
  {
    var (f', r) := OpenFile(f, path, reading);
    f' == f && r.Ok? && Pread(f, r.value, |bytes|, 0) == Ok(bytes)
  }

  lemma OpenExisting(f: Fs, path: string, name: Name, bytes: seq<byte>)
    requires Typed(f)
    requires Resolve(path, f.limits.pathBytes + longestMountPrefix) == Ok(name)
    requires path != "" && path[|path| - 1] != '/'
    requires name in f.names && f.nodes[f.names[name]] == Node(bytes, false)
    ensures OpensAs(f, path, bytes)
  {
    LocateMounted(f, path, name);
    hide Locate, Resolve, Typed;
    assert OpenFile(f, path, reading) == (f, Ok(Opening(reading, f.names[name], name)));
    assert bytes[0..|bytes|] == bytes;
  }

  /**
   * Every staged file opens through the root under its mount's prefix, and
   * reads back exactly the caller's bytes.
   */
  lemma StagedFilesOpen(source: Fs, included: Fs, files: map<Name, seq<byte>>, limits: Limits, n: Name, first: bool)
    requires Typed(source) && Typed(included)
    requires Staged(if first then source else included, files)
    requires n in files && Canonical(n) && n != [] && |Text(n)| <= limits.pathBytes
    ensures OpensAs(NewRoot(source, included, limits), "/" + (if first then "src" else "include") + "/" + Text(n), files[n])
  {
    hide Entries, Text, NewRoot, Staged, Canonical, Resolve, OpensAs, OpenFile, Pread;
    var prefix := if first then "src" else "include";
    MountResolve(prefix, n, limits.pathBytes + longestMountPrefix);
    EntryAt(if first then source else included, files, n);
    MountedAt(source, included, limits, n, first);
    RootFields(source, included, limits);
    TextEnds(n);
    LastChar("/" + prefix + "/", Text(n));
    OpenExisting(NewRoot(source, included, limits), "/" + prefix + "/" + Text(n), [prefix] + n, files[n]);
  }

  lemma LastChar(a: string, b: string)
    requires b != ""
    ensures (a + b)[|a + b| - 1] == b[|b| - 1]
  {
  }

  lemma LocateMounted(f: Fs, path: string, name: Name)
    requires Typed(f)
    requires Resolve(path, f.limits.pathBytes + longestMountPrefix) == Ok(name)
    requires path != "" && path[|path| - 1] != '/'
    ensures Locate(f, path, false) == (f, Ok((name, false)))
  {
    hide Resolve, Typed;
  }

  lemma EntryAt(f: Fs, files: map<Name, seq<byte>>, n: Name)
    requires Typed(f) && Staged(f, files) && n in files
    ensures n in f.names && f.nodes[f.names[n]] == Node(files[n], false)
  {
    hide Typed;
  }

  /** A file's path does not end in a slash. */
  lemma {:induction false} TextEnds(n: Name)
    requires Canonical(n) && n != []
    ensures Text(n) != "" && Text(n)[|Text(n)| - 1] != '/'
  {
    assert Component(n[0]);
    if |n| > 1 {
      TextEnds(n[1..]);
    }
  }
}
