/** What the in-memory filesystem keeps, whatever a guest calls. */
module MemoryFsSafety {
  import opened Prelude
  import opened GuestPath
  import opened MemoryFs

  // ------------------------------------------------------------- the charge

  /** Bytes held by every node ever created, named or not. */
  function Total(nodes: seq<Node>): nat {
    if nodes == [] then 0 else Total(nodes[..|nodes| - 1]) + |nodes[|nodes| - 1].data|
  }

  lemma TotalAdd(nodes: seq<Node>, n: Node)
    ensures Total(nodes + [n]) == Total(nodes) + |n.data|
  {
    assert (nodes + [n])[..|nodes|] == nodes;
  }

  lemma {:induction false} TotalUpdate(nodes: seq<Node>, i: nat, n: Node)
    requires i < |nodes|
    ensures Total(nodes[i := n]) == Total(nodes) + |n.data| - |nodes[i].data|
    ensures |nodes[i].data| <= Total(nodes)
    decreases |nodes|
  {
    var k := |nodes| - 1;
    if i == k {
      assert nodes[i := n][..k] == nodes[..k];
    } else {
      TotalUpdate(nodes[..k], i, n);
      assert nodes[i := n][..k] == nodes[..k][i := n];
    }
  }

  // -------------------------------------------------------------- invariant

  /** Every name is canonical, fits the path budget, and lies in a directory. */
  ghost predicate Tree(f: Fs) {
    && Typed(f)
    && IsDir(f, [])
    && (forall n <- f.names :: Canonical(n) && (n != [] ==> IsDir(f, Dir(n)) && |Text(n)| <= f.limits.pathBytes))
  }

  /** No two names share a node. */
  ghost predicate Unshared(f: Fs) {
    forall a, b | a in f.names && b in f.names && f.names[a] == f.names[b] :: a == b
  }

  /** The charge is what the nodes hold, within the budget. */
  predicate Charged(f: Fs) {
    f.used == Total(f.nodes) <= f.limits.outputBytes
  }

  predicate Counted(f: Fs) {
    |f.names| <= f.created + 1 && f.created <= f.limits.outputEntries
  }

  ghost predicate Inv(f: Fs) {
    Tree(f) && Unshared(f) && Charged(f) && Counted(f)
  }

  /** A handle never writes a directory, and its offset stays within the budget. */
  predicate HandleOk(f: Fs, h: Handle) {
    && On(f, h)
    && (h.writable ==> !f.nodes[h.node].dir)
    && 0 <= h.offset <= f.limits.outputBytes
  }

  ghost predicate WorldOk(w: World) {
    Inv(w.fs) && forall j | 0 <= j < |w.handles| :: HandleOk(w.fs, w.handles[j])
  }

  lemma EmptyInv(readOnly: bool, limits: Limits)
    ensures Inv(Empty(readOnly, limits))
  {
    var f := Empty(readOnly, limits);
    assert f.names == map[[] := 0];
    assert f.names.Keys == {[]};
    TotalAdd([], Node([], true));
  }

  // ------------------------------------------------------------- the entries

  lemma AddKeepsDir(f: Fs, n: Name, dir: bool, m: Name)
    requires Typed(f) && n !in f.names && IsDir(f, m)
    ensures IsDir(Add(f, n, dir, []), m)
  {
  }

  lemma AddTree(f: Fs, n: Name, dir: bool)
    requires Tree(f)
    requires Canonical(n) && n != [] && n !in f.names && IsDir(f, Dir(n)) && |Text(n)| <= f.limits.pathBytes
    ensures Tree(Add(f, n, dir, []))
  {
    TreeTyped(f);
    AddKeepsDir(f, n, dir, []);
    var f' := Add(f, n, dir, []);
    forall m | m in f'.names ensures Canonical(m) && (m != [] ==> IsDir(f', Dir(m)) && |Text(m)| <= f'.limits.pathBytes) {
      var child := if m == n then n else m;
      assert m != [] ==> IsDir(f, Dir(child));
      hide Canonical, Text, Typed;
      if m != [] {
        AddKeepsDir(f, n, dir, Dir(m));
      }
    }
    hide Canonical, Text, IsDir;
  }

  lemma AddUnshared(f: Fs, n: Name, dir: bool)
    requires Typed(f) && Unshared(f)
    ensures Unshared(Add(f, n, dir, []))
  {
  }

  /** What is staged counts too: the charge follows the data. */
  lemma AddSums(f: Fs, n: Name, dir: bool, data: seq<byte>)
    requires Typed(f) && f.used == Total(f.nodes)
    ensures Add(f, n, dir, data).used == Total(Add(f, n, dir, data).nodes)
  {
    TotalAdd(f.nodes, Node(data, dir));
  }

  lemma AddCharged(f: Fs, n: Name, dir: bool)
    requires Typed(f) && Charged(f)
    ensures Charged(Add(f, n, dir, []))
  {
    AddSums(f, n, dir, []);
  }

  lemma AddCounted(f: Fs, n: Name, dir: bool)
    requires Typed(f) && Counted(f) && n !in f.names && f.created < f.limits.outputEntries
    ensures Counted(Add(f.(created := f.created + 1), n, dir, []))
  {
    assert f.names[n := |f.nodes|].Keys == f.names.Keys + {n};
    assert |f.names[n := |f.nodes|]| == |f.names[n := |f.nodes|].Keys|;
  }

  /** The invariant concerns neither the count of entries nor the limit, except as Counted. */
  lemma OtherFields(f: Fs, f': Fs)
    requires Tree(f) && Unshared(f) && Charged(f)
    requires f'.names == f.names && f'.nodes == f.nodes && f'.used == f.used && f'.limits == f.limits
    ensures Tree(f') && Unshared(f') && Charged(f')
  {
    hide Canonical, Text;
  }

  lemma PartsOf(f: Fs)
    requires Inv(f)
    ensures Typed(f) && IsDir(f, []) && Tree(f) && Unshared(f) && Charged(f) && Counted(f)
  {
  }

  lemma AddInv(f: Fs, n: Name, dir: bool)
    requires Inv(f) && Canonical(n) && n != [] && n !in f.names && IsDir(f, Dir(n))
    requires |Text(n)| <= f.limits.pathBytes && f.created < f.limits.outputEntries
    ensures Inv(Add(f.(created := f.created + 1), n, dir, []))
  {
    PartsOf(f);
    var f1 := f.(created := f.created + 1);
    OtherFields(f, f1);
    SameDir(f, f1, Dir(n));
    hide *;
    TreeTyped(f1);
    AddTree(f1, n, dir);
    AddUnshared(f1, n, dir);
    AddCharged(f1, n, dir);
    AddCounted(f, n, dir);
  }

  lemma SameDir(f: Fs, f': Fs, m: Name)
    requires Typed(f) && f'.names == f.names && f'.nodes == f.nodes
    ensures Typed(f') && IsDir(f', m) == IsDir(f, m)
  {
  }

  lemma ParentIs(f: Fs, n: Name)
    requires Typed(f) && IsDir(f, []) && n !in f.names && ParentError(f, n).None?
    ensures n != [] && IsDir(f, Dir(n))
  {
    hide Typed;
  }

  /** Either a budget is recorded, or one more entry is counted and made. */
  lemma CreateIs(f: Fs, n: Name, dir: bool)
    requires Typed(f)
    ensures
      var (f', errno) := Create(f, n, dir);
      if errno.Some? then exists b :: f' == Exceeded(f, b)
      else |Text(n)| <= f.limits.pathBytes && f.created < f.limits.outputEntries
           && Typed(f.(created := f.created + 1)) && f' == Add(f.(created := f.created + 1), n, dir, [])
  {
    hide Text, Exceeded;
  }

  lemma CreateInv(f: Fs, n: Name, dir: bool)
    requires Inv(f)
    requires Canonical(n) && n !in f.names && ParentError(f, n).None?
    ensures Inv(Create(f, n, dir).0)
  {
    hide *;
    PartsOf(f);
    ParentIs(f, n);
    CreateIs(f, n, dir);
    if Create(f, n, dir).1.None? {
      AddInv(f, n, dir);
    } else {
      var b :| Create(f, n, dir).0 == Exceeded(f, b);
      ExceededInv(f, b);
    }
  }

  lemma TreeTyped(f: Fs)
    requires Tree(f)
    ensures Typed(f)
  {
  }

  lemma TruncateInv(f: Fs, h: Handle, size: int)
    requires Inv(f) && On(f, h)
    ensures Inv(Truncate(f, h, size).0)
  {
    var (f', errno) := Truncate(f, h, size);
    if errno.None? {
      DataInv(f, h.node, Resized(f.nodes[h.node].data, size));
    }
  }

  lemma DataInv(f: Fs, i: nat, data: seq<byte>)
    requires Inv(f) && i < |f.nodes|
    requires f.used + |data| - |f.nodes[i].data| <= f.limits.outputBytes
    ensures Inv(WithData(f, i, data))
  {
    TotalUpdate(f.nodes, i, f.nodes[i].(data := data));
    var f' := WithData(f, i, data);
    forall n | n in f'.names && n != [] ensures IsDir(f', Dir(n)) {
      assert IsDir(f, Dir(n));
    }
    assert IsDir(f, []);
  }

  /** The node as a write grows it. */
  function Grown(f: Fs, h: Handle, end: nat): (r: Fs)
    requires Typed(f) && On(f, h)
    ensures Typed(r) && On(r, h)
  {
    if end > |f.nodes[h.node].data| then Truncate(f, h, end).0 else f
  }

  lemma PwriteIs(f: Fs, h: Handle, buf: seq<byte>, offset: int)
    requires Typed(f) && On(f, h)
    ensures
      var (f', r) := Pwrite(f, h, buf, offset);
      if r.Err? then f' == f || f' == Exceeded(f, OutputBytes)
      else
        && 0 <= offset
        && var data := Grown(f, h, offset + |buf|).nodes[h.node].data;
           && offset + |buf| <= |data|
           && f' == WithData(Grown(f, h, offset + |buf|), h.node, Overwrite(data, offset, buf))
  {
    hide Typed, WithData, Overwrite;
    if 0 <= offset && offset + |buf| > |f.nodes[h.node].data| && Truncate(f, h, offset + |buf|).1.None? {
      TruncateGrows(f, h, offset + |buf|);
    }
  }

  lemma GrownInv(f: Fs, h: Handle, end: nat)
    requires Inv(f) && On(f, h)
    ensures Inv(Grown(f, h, end))
  {
    TruncateInv(f, h, end);
    hide Inv, Truncate;
  }

  lemma PwriteInv(f: Fs, h: Handle, buf: seq<byte>, offset: int)
    requires Inv(f) && On(f, h)
    ensures Inv(Pwrite(f, h, buf, offset).0)
  {
    hide *;
    PartsOf(f);
    PwriteIs(f, h, buf, offset);
    if Pwrite(f, h, buf, offset).1.Ok? {
      GrownInv(f, h, offset + |buf|);
      OverwriteInv(Grown(f, h, offset + |buf|), h, buf, offset);
    } else {
      ExceededInv(f, OutputBytes);
    }
  }

  lemma OverwriteInv(f: Fs, h: Handle, buf: seq<byte>, offset: nat)
    requires Inv(f) && On(f, h) && offset + |buf| <= |f.nodes[h.node].data|
    ensures Inv(WithData(f, h.node, Overwrite(f.nodes[h.node].data, offset, buf)))
  {
    PartsOf(f);
    hide Inv;
    DataInv(f, h.node, Overwrite(f.nodes[h.node].data, offset, buf));
  }

  lemma ExceededInv(f: Fs, b: Budget)
    requires Inv(f)
    ensures Inv(Exceeded(f, b))
  {
  }

  lemma LocateInv(f: Fs, path: string, creating: bool)
    requires Inv(f)
    ensures Inv(Locate(f, path, creating).0)
    ensures Locate(f, path, creating).1.Ok? ==> Locate(f, path, creating).0 == f && Canonical(Locate(f, path, creating).1.value.0)
  {
    ResolvedIsCanonical(path, f.limits.pathBytes + longestMountPrefix);
  }

  lemma OpenedInv(f: Fs, n: Name, flags: Flags)
    requires Inv(f) && n in f.names
    ensures Inv(Opened(f, n, flags).0)
    ensures var r := Opened(f, n, flags); r.1.Ok? ==> HandleOk(r.0, r.1.value)
  {
    TruncateInv(f, Opening(flags, f.names[n], n), 0);
  }

  lemma OpenInv(f: Fs, path: string, flags: Flags)
    requires Inv(f)
    ensures Inv(OpenFile(f, path, flags).0)
    ensures var r := OpenFile(f, path, flags); r.1.Ok? ==> HandleOk(r.0, r.1.value)
  {
    LocateInv(f, path, flags.create);
    assert Typed(f);
    hide Inv, Locate, Create, Opened, HandleOk, Canonical, Typed;
    var at := Locate(f, path, flags.create).1;
    if at.Ok? {
      var n := at.value.0;
      if n in f.names {
        OpenedInv(f, n, flags);
      } else if ParentError(f, n).None? {
        CreateInv(f, n, false);
        CreateNames(f, n);
        var (f2, errno) := Create(f, n, false);
        if errno.None? {
          OpenedInv(f2, n, flags);
        }
      }
    }
  }

  lemma CreateNames(f: Fs, n: Name)
    requires Typed(f)
    ensures Create(f, n, false).1.None? ==> n in Create(f, n, false).0.names
  {
    hide Text;
  }

  lemma MkdirInv(f: Fs, path: string)
    requires Inv(f)
    ensures Inv(Mkdir(f, path).0)
  {
    var at := Resolve(path, f.limits.pathBytes + longestMountPrefix);
    ResolvedIsCanonical(path, f.limits.pathBytes + longestMountPrefix);
    if at.Ok? && at.value !in f.names && ParentError(f, at.value).None? {
      CreateInv(f, at.value, true);
    }
  }

  /** A file has no entries below it, so its name can go. */
  lemma RemoveInv(f: Fs, n: Name)
    requires Inv(f) && IsFile(f, n)
    ensures Inv(f.(names := f.names - {n}))
    ensures |f.names - {n}| == |f.names| - 1
  {
    var f' := f.(names := f.names - {n});
    assert f'.names.Keys == f.names.Keys - {n};
    forall m | m in f'.names && m != [] ensures IsDir(f', Dir(m)) {
      assert IsDir(f, Dir(m));
    }
  }

  lemma UnlinkInv(f: Fs, path: string)
    requires Inv(f)
    ensures Inv(Unlink(f, path).0)
  {
    LocateInv(f, path, false);
    var at := Locate(f, path, false).1;
    if at.Ok? && IsFile(f, at.value.0) {
      RemoveInv(f, at.value.0);
    }
  }

  /** Once its own name is gone, a file may take any name in a directory. */
  lemma PlaceTree(f: Fs, i: nat, to: Name)
    requires Tree(f) && i < |f.nodes| && !f.nodes[i].dir
    requires Canonical(to) && to != [] && IsDir(f, Dir(to)) && !IsDir(f, to) && |Text(to)| <= f.limits.pathBytes
    ensures Tree(f.(names := f.names[to := i]))
  {
    hide Canonical, Text;
    var f' := f.(names := f.names[to := i]);
    forall m | m in f'.names && m != [] ensures IsDir(f', Dir(m)) {
      if m != to {
        assert IsDir(f, Dir(m));
      }
    }
    assert IsDir(f, []);
  }

  lemma MoveInv(f: Fs, from: Name, to: Name)
    requires Inv(f) && Canonical(to)
    ensures Inv(Move(f, from, to).0)
  {
    assert Typed(f) && IsDir(f, []);
    hide Inv, Canonical, Text, Typed, Charge;
    var (f', errno) := if to in f.names then (f, None) else Charge(f, to);
    ChargeInv(f, to);
    if IsFile(f, from) && ParentError(f, to).None? && !IsDir(f, to) && from != to && errno.None? {
      MovedInv(f, from, to, f');
    }
  }

  /** A name is charged, or the budget that forbids it is recorded. */
  lemma ChargeInv(f: Fs, n: Name)
    requires Inv(f)
    ensures Inv(Charge(f, n).0)
    ensures var r := Charge(f, n);
            && SameNodes(f, r.0)
            && r.0.created == (if r.1.None? then f.created + 1 else f.created)
            && (r.1.None? ==> |Text(n)| <= f.limits.pathBytes)
  {
    hide Tree, Unshared, Charged, Text;
    OtherFields(f, Charge(f, n).0);
  }

  predicate SameNodes(f: Fs, f': Fs) {
    f'.names == f.names && f'.nodes == f.nodes && f'.used == f.used && f'.limits == f.limits && f'.readOnly == f.readOnly
  }

  lemma NameFits(f: Fs, n: Name)
    requires Inv(f) && n in f.names && n != []
    ensures |Text(n)| <= f.limits.pathBytes
  {
    hide Text;
  }

  lemma MovedInv(f: Fs, from: Name, to: Name, f1: Fs)
    requires Inv(f) && Inv(f1) && SameNodes(f, f1)
    requires f1.created == if to in f.names then f.created else f.created + 1
    requires to !in f.names ==> |Text(to)| <= f.limits.pathBytes
    requires Typed(f) && IsFile(f, from) && Canonical(to) && IsDir(f, Dir(to)) && !IsDir(f, to) && from != to && to != []
    ensures Inv(f1.(names := (f.names - {from})[to := f.names[from]]))
  {
    if to in f.names {
      NameFits(f, to);
    }
    hide Canonical, Text, Tree, Unshared, Charged, Total, Typed;
    RemoveInv(f, from);
    var g := f.(names := f.names - {from});
    TreeTyped(g);
    PlaceTree(g, f.names[from], to);
    MoveCounts(f, from, to);
    MoveUnshared(f, from, to);
    var g' := g.(names := g.names[to := f.names[from]]);
    ChargedNames(f, g');
    OtherFields(g', f1.(names := g'.names));
  }

  lemma ChargedNames(f: Fs, f': Fs)
    requires Charged(f)
    requires f'.nodes == f.nodes && f'.used == f.used && f'.limits == f.limits
    ensures Charged(f')
  {
  }

  lemma MoveUnshared(f: Fs, from: Name, to: Name)
    requires Typed(f) && Unshared(f) && from in f.names
    ensures Unshared(f.(names := (f.names - {from})[to := f.names[from]]))
  {
  }

  lemma MoveCounts(f: Fs, from: Name, to: Name)
    requires Counted(f) && from in f.names && from != to
    ensures |(f.names - {from})[to := f.names[from]]| == if to in f.names then |f.names| - 1 else |f.names|
  {
    var m := f.names - {from};
    assert m.Keys == f.names.Keys - {from};
    assert m[to := f.names[from]].Keys == m.Keys + {to};
    assert |m[to := f.names[from]]| == |m[to := f.names[from]].Keys|;
  }

  lemma RenameInv(f: Fs, source: string, target: string)
    requires Inv(f)
    ensures Inv(Rename(f, source, target).0)
  {
    LocateInv(f, source, false);
    LocateInv(f, target, true);
    var at1, at2 := Locate(f, source, false).1, Locate(f, target, true).1;
    if at1.Ok? && at2.Ok? {
      MoveInv(f, at1.value.0, at2.value.0);
    }
  }

  // --------------------------------------------------------------- every run

  lemma FileInv(f: Fs, h: Handle, call: FileOp)
    requires Inv(f) && HandleOk(f, h)
    ensures Inv(DoFile(f, h, call).0)
  {
    assert Typed(f);
    hide Inv, Pwrite, Truncate, Typed, Seek, Pread;
    match call
    case AtPwrite(buf, offset) => PwriteInv(f, h, buf, offset);
    case AtWrite(buf) => PwriteInv(f, h, buf, if h.appendMode then |f.nodes[h.node].data| else h.offset);
    case AtTruncate(size) => TruncateInv(f, h, size);
    case _ =>
  }

  /** Nothing but the data of one node changes, whatever handle is used. */
  lemma FileExtends(f: Fs, h: Handle, call: FileOp)
    requires Typed(f) && On(f, h)
    ensures Extends(f, DoFile(f, h, call).0)
  {
    hide Typed, Resized, Overwrite, Pread, Seek;
    match call
    case AtPwrite(buf, offset) =>
    case AtWrite(buf) =>
    case AtTruncate(size) =>
    case _ =>
  }

  lemma HandleMoves(f: Fs, h: Handle, call: FileOp)
    requires Typed(f) && Charged(f) && HandleOk(f, h)
    ensures var h' := DoFile(f, h, call).1;
            h'.node == h.node && h'.writable == h.writable && 0 <= h'.offset <= f.limits.outputBytes
  {
    hide Typed, Truncate;
    TotalUpdate(f.nodes, h.node, f.nodes[h.node]);
  }

  lemma HandleExtends(f: Fs, f': Fs, h: Handle)
    requires Extends(f, f') && HandleOk(f, h)
    ensures HandleOk(f', h)
  {
  }

  ghost predicate Extends(f: Fs, f': Fs) {
    && |f'.nodes| >= |f.nodes| && f'.limits == f.limits
    && forall i | 0 <= i < |f.nodes| :: f'.nodes[i].dir == f.nodes[i].dir
  }

  lemma OpenedExtends(f: Fs, n: Name, flags: Flags)
    requires Typed(f) && n in f.names
    ensures Extends(f, Opened(f, n, flags).0)
  {
    hide Typed;
  }

  lemma OpenExtends(f: Fs, path: string, flags: Flags)
    requires Typed(f)
    ensures Extends(f, OpenFile(f, path, flags).0)
  {
    hide Typed, Opened, Resolve, Text;
    var (f1, at) := Locate(f, path, flags.create);
    if at.Ok? {
      var n := at.value.0;
      if n in f1.names {
        OpenedExtends(f1, n, flags);
      } else {
        CreateNames(f1, n);
        var (f2, errno) := Create(f1, n, false);
        if errno.None? {
          OpenedExtends(f2, n, flags);
        }
      }
    }
  }

  lemma MkdirExtends(f: Fs, path: string)
    requires Typed(f)
    ensures Extends(f, Mkdir(f, path).0)
  {
    hide Typed, Resolve, Text;
  }

  lemma SameNodesExtend(f: Fs, op: Op)
    requires Typed(f)
    ensures op.OpUnlink? ==> Extends(f, Unlink(f, op.path).0)
    ensures op.OpRename? ==> Extends(f, Rename(f, op.source, op.target).0)
  {
    hide Typed, Resolve, Text;
  }

  /** The calls that name no handle. */
  lemma NameInv(f: Fs, op: Op)
    requires Inv(f) && !op.OpFile?
    ensures Typed(f)
    ensures op.OpOpen? ==> Extends(f, OpenFile(f, op.path, op.flags).0) && Inv(OpenFile(f, op.path, op.flags).0)
    ensures op.OpMkdir? ==> Extends(f, Mkdir(f, op.path).0) && Inv(Mkdir(f, op.path).0)
    ensures op.OpUnlink? ==> Extends(f, Unlink(f, op.path).0) && Inv(Unlink(f, op.path).0)
    ensures op.OpRename? ==> Extends(f, Rename(f, op.source, op.target).0) && Inv(Rename(f, op.source, op.target).0)
  {
    TreeTyped(f);
    hide *;
    match op
    case OpOpen(path, flags) =>
      OpenInv(f, path, flags);
      OpenExtends(f, path, flags);
    case OpMkdir(path) =>
      MkdirInv(f, path);
      MkdirExtends(f, path);
    case OpUnlink(path) =>
      UnlinkInv(f, path);
      SameNodesExtend(f, op);
    case OpRename(source, target) =>
      RenameInv(f, source, target);
      SameNodesExtend(f, op);
  }

  lemma DoInv(w: World, op: Op)
    requires WorldOk(w)
    ensures Ready(w) && WorldOk(Do(w, op))
  {
    var f := w.fs;
    assert Ready(w) && Charged(f);
    hide Inv, OpenFile, Mkdir, Unlink, Rename, DoFile, Extends, HandleOk, Charged;
    var f' := Do(w, op).fs;
    if op.OpFile? {
      if op.h < |w.handles| {
        var h := w.handles[op.h];
        FileInv(f, h, op.call);
        FileExtends(f, h, op.call);
        HandleMoves(f, h, op.call);
        Reopened(f, h, DoFile(f, h, op.call).1, f');
      }
    } else {
      NameInv(f, op);
      if op.OpOpen? {
        OpenInv(f, op.path, op.flags);
      }
    }
    if f' != f {
      forall j | 0 <= j < |w.handles| ensures HandleOk(f', w.handles[j]) {
        HandleExtends(f, f', w.handles[j]);
      }
    }
  }

  lemma Reopened(f: Fs, h: Handle, h': Handle, f': Fs)
    requires Extends(f, f') && HandleOk(f, h)
    requires h'.node == h.node && h'.writable == h.writable && 0 <= h'.offset <= f.limits.outputBytes
    ensures HandleOk(f', h')
  {
  }

  /**
   * Over every sequence of calls on a writable output filesystem: the charge
   * is exactly the bytes of all nodes ever created and stays in its budget;
   * the live names number at most the entries ever created, and those stay in
   * theirs; every name fits the path budget and its parent is a live
   * directory, so no file is a prefix of another name.
   */
  lemma {:induction false} RunInv(w: World, ops: seq<Op>)
    requires WorldOk(w)
    ensures Ready(w) && WorldOk(Run(w, ops))
    decreases |ops|
  {
    hide WorldOk, Do;
    DoInv(w, if ops == [] then OpMkdir("") else ops[0]);
    if ops != [] {
      RunInv(Do(w, ops[0]), ops[1..]);
    }
  }

  /** So it is for every run of a guest, from the empty output filesystem on. */
  lemma EveryRun(limits: Limits, ops: seq<Op>)
    ensures
      var f := Run(World(Empty(false, limits), []), ops).fs;
      && f.used == Total(f.nodes) <= f.limits.outputBytes
      && |f.names| - 1 <= f.created <= f.limits.outputEntries
      && IsDir(f, [])
      && (forall n <- f.names ::
            Canonical(n) && (n != [] ==> IsDir(f, Dir(n)) && |Text(n)| <= f.limits.pathBytes))
      && (forall n, below | IsFile(f, n) && below in f.names && |n| < |below| :: below[..|n|] != n)
  {
    EmptyInv(false, limits);
    var w := World(Empty(false, limits), []);
    assert WorldOk(w);
    RunInv(w, ops);
    hide Run, Canonical, Text, IsDir, IsFile, Total;
    var f := Run(w, ops).fs;
    forall n, below | IsFile(f, n) && below in f.names && |n| < |below| ensures below[..|n|] != n {
      if below[..|n|] == n {
        NothingBelowFiles(f, n, below);
      }
    }
  }

  /** No file's name is a proper prefix of another entry's. */
  lemma {:induction false} NothingBelowFiles(f: Fs, n: Name, below: Name)
    requires Inv(f)
    requires IsFile(f, n) && below in f.names
    requires |n| < |below| && below[..|n|] == n
    ensures false
    decreases |below|
  {
    assert IsDir(f, Dir(below));
    if |below| > |n| + 1 {
      assert Dir(below)[..|n|] == n;
      NothingBelowFiles(f, n, Dir(below));
    }
  }
}
