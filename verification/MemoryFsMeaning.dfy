/** What the calls of the in-memory filesystem mean to a guest and to its host. */
module MemoryFsMeaning {
  import opened Prelude
  import opened GuestPath
  import opened MemoryFs
  import opened MemoryFsSafety

  // ------------------------------------------------------ writing and reading

  /** The byte at k after `buf` was written at `offset` into `data`. */
  function Written(data: seq<byte>, buf: seq<byte>, offset: nat, k: nat): byte {
    if offset <= k < offset + |buf| then buf[k - offset] else if k < |data| then data[k] else 0
  }

  /**
   * A successful write puts its bytes at their offset, fills a gap with
   * zeros, keeps every other byte, and touches no other node. A failed write
   * touches no node at all.
   */
  lemma PwriteMeans(f: Fs, h: Handle, buf: seq<byte>, offset: int)
    requires Typed(f) && On(f, h)
    ensures
      var (f', r) := Pwrite(f, h, buf, offset);
      var data, data' := f.nodes[h.node].data, f'.nodes[h.node].data;
      && (r.Err? ==> f'.nodes == f.nodes && f'.used == f.used)
      && (r.Ok? ==>
            && r.value == |buf|
            && 0 <= offset
            && |data'| == Max(|data|, offset + |buf|)
            && (forall k | 0 <= k < |data'| :: data'[k] == Written(data, buf, offset, k))
            && (forall i | 0 <= i < |f.nodes| && i != h.node :: f'.nodes[i] == f.nodes[i]))
  {
    hide Typed;
  }

  /** What was written is what any readable handle on the node reads. */
  lemma ReadsWhatWasWritten(f: Fs, h: Handle, buf: seq<byte>, offset: int, g: Handle)
    requires Typed(f) && On(f, h)
    requires Pwrite(f, h, buf, offset).1.Ok?
    requires g.node == h.node && g.readable && !g.closed
    ensures Pread(Pwrite(f, h, buf, offset).0, g, |buf|, offset) == if f.nodes[h.node].dir then Err(EISDIR) else Ok(buf)
  {
    PwriteMeans(f, h, buf, offset);
    hide Typed, Pwrite;
    var f' := Pwrite(f, h, buf, offset).0;
    assert f'.nodes[g.node].dir == f.nodes[h.node].dir by {
      PwriteKeepsKind(f, h, buf, offset);
    }
    var data := f'.nodes[g.node].data;
    if offset < |data| {
      assert data[offset..offset + |buf|] == buf;
    }
  }

  lemma PwriteKeepsKind(f: Fs, h: Handle, buf: seq<byte>, offset: int)
    requires Typed(f) && On(f, h)
    ensures Pwrite(f, h, buf, offset).0.nodes[h.node].dir == f.nodes[h.node].dir
  {
    hide Typed;
  }

  // ---------------------------------------------------------- over whole runs

  /** The call does not write or truncate node i. */
  predicate Spares(w: World, op: Op, i: nat)
    requires Ready(w)
  {
    match op
    case OpOpen(path, flags) =>
      var at := Locate(w.fs, path, flags.create).1;
      flags.trunc && at.Ok? && at.value.0 in w.fs.names ==> w.fs.names[at.value.0] != i
    case OpFile(h, call) =>
      h < |w.handles| && w.handles[h].node == i ==> !call.AtPwrite? && !call.AtWrite? && !call.AtTruncate?
    case _ => true
  }

  predicate AllSpare(w: World, ops: seq<Op>, i: nat)
    requires Ready(w)
    decreases |ops|
  {
    ops != [] ==> Spares(w, ops[0], i) && AllSpare(Do(w, ops[0]), ops[1..], i)
  }

  lemma FileSpares(f: Fs, h: Handle, call: FileOp, i: nat)
    requires Typed(f) && On(f, h) && i < |f.nodes|
    requires h.node == i ==> !call.AtPwrite? && !call.AtWrite? && !call.AtTruncate?
    ensures var (f', h') := DoFile(f, h, call);
            f'.nodes[i] == f.nodes[i] && h'.readable == h.readable && (h.closed ==> h'.closed)
  {
    hide Typed, Resized, Overwrite, Pread, Wrap;
  }

  lemma OpenSpares(f: Fs, path: string, flags: Flags, i: nat)
    requires Typed(f) && i < |f.nodes|
    requires var at := Locate(f, path, flags.create).1;
             flags.trunc && at.Ok? && at.value.0 in f.names ==> f.names[at.value.0] != i
    ensures OpenFile(f, path, flags).0.nodes[i] == f.nodes[i]
  {
    hide Resolve, Text, Resized;
  }

  /** Such a call leaves the node as it is, and every handle on the node it was opened on. */
  lemma SparesOne(w: World, op: Op, i: nat)
    requires Ready(w) && i < |w.fs.nodes| && Spares(w, op, i)
    ensures |Do(w, op).fs.nodes| >= |w.fs.nodes| && Do(w, op).fs.nodes[i] == w.fs.nodes[i]
    ensures Still(w, Do(w, op))
  {
    match op
    case OpOpen(path, flags) =>
      OpenSpares(w.fs, path, flags, i);
      hide OpenFile;
    case OpFile(h, call) =>
      if h < |w.handles| {
        FileSpares(w.fs, w.handles[h], call, i);
        hide DoFile;
        HandleStill(w, h, call);
      }
    case _ =>
      hide Resolve, Text;
  }

  predicate Still(w: World, w': World) {
    && |w.handles| <= |w'.handles|
    && forall g | 0 <= g < |w.handles| ::
         && w'.handles[g].node == w.handles[g].node && w'.handles[g].readable == w.handles[g].readable
         && (w.handles[g].closed ==> w'.handles[g].closed)
  }

  lemma HandleStill(w: World, h: nat, call: FileOp)
    requires Ready(w) && h < |w.handles|
    ensures Still(w, Do(w, OpFile(h, call)))
  {
    hide Pwrite, Truncate, Pread, Wrap, Typed;
  }

  lemma {:induction false} SparedRun(w: World, ops: seq<Op>, i: nat)
    requires Ready(w) && i < |w.fs.nodes| && AllSpare(w, ops, i)
    ensures |Run(w, ops).fs.nodes| >= |w.fs.nodes| && Run(w, ops).fs.nodes[i] == w.fs.nodes[i]
    ensures Still(w, Run(w, ops))
    decreases |ops|
  {
    hide Do, Spares, Ready;
    if ops != [] {
      SparesOne(w, ops[0], i);
      SparedRun(Do(w, ops[0]), ops[1..], i);
    }
  }

  /**
   * What was written is read back by every open readable handle on the node,
   * old or new, after any calls that neither write nor truncate the node:
   * its name may go, move or be taken by another file.
   */
  lemma ReadsBackLater(w: World, h: nat, buf: seq<byte>, offset: int, ops: seq<Op>, g: nat)
    requires Ready(w) && h < |w.handles| && Pwrite(w.fs, w.handles[h], buf, offset).1.Ok?
    requires AllSpare(Do(w, OpFile(h, AtPwrite(buf, offset))), ops, w.handles[h].node)
    ensures
      var w' := Run(Do(w, OpFile(h, AtPwrite(buf, offset))), ops);
      g < |w'.handles| && w'.handles[g].node == w.handles[h].node && w'.handles[g].readable && !w'.handles[g].closed ==>
        Pread(w'.fs, w'.handles[g], |buf|, offset) == if w.fs.nodes[w.handles[h].node].dir then Err(EISDIR) else Ok(buf)
  {
    var w1 := Do(w, OpFile(h, AtPwrite(buf, offset)));
    assert w1.fs == Pwrite(w.fs, w.handles[h], buf, offset).0;
    hide Pwrite, Do, AllSpare;
    SparedRun(w1, ops, w.handles[h].node);
    var w' := Run(w1, ops);
    if g < |w'.handles| && w'.handles[g].node == w.handles[h].node && w'.handles[g].readable && !w'.handles[g].closed {
      ReadsWhatWasWritten(w.fs, w.handles[h], buf, offset, w'.handles[g]);
    }
  }

  /** An open handle reads on, whatever becomes of its file's name. */
  lemma HandlesReadOn(w: World, ops: seq<Op>, g: nat, count: nat, offset: int)
    requires Ready(w) && g < |w.handles| && AllSpare(w, ops, w.handles[g].node)
    ensures
      var w' := Run(w, ops);
      && g < |w'.handles|
      && (!w'.handles[g].closed ==> Pread(w'.fs, w'.handles[g], count, offset) == Pread(w.fs, w.handles[g], count, offset))
  {
    hide Do, AllSpare;
    SparedRun(w, ops, w.handles[g].node);
  }

  // -------------------------------------------------------------- snapshots

  lemma UnlinkSnapshot(f: Fs, path: string)
    requires Typed(f) && Unlink(f, path).1.None?
    ensures Locate(f, path, false).1.Ok?
    ensures Snapshot(Unlink(f, path).0) == Snapshot(f) - {Locate(f, path, false).1.value.0}
  {
    hide Resolve, Text, IsFile;
  }

  /** A rename moves the file's contents, replacing the file that had the name. */
  lemma MoveSnapshot(f: Fs, from: Name, to: Name)
    requires Typed(f) && Move(f, from, to).1.None?
    ensures from in Snapshot(f)
    ensures Snapshot(Move(f, from, to).0)
         == if from == to then Snapshot(f) else (Snapshot(f) - {from})[to := Snapshot(f)[from]]
  {
    hide Charge, ParentError;
    if from != to {
      MovedSnapshot(f, from, to, Move(f, from, to).0);
    }
  }

  lemma MovedSnapshot(f: Fs, from: Name, to: Name, f': Fs)
    requires Typed(f) && IsFile(f, from) && from != to
    requires f'.nodes == f.nodes && f'.names == (f.names - {from})[to := f.names[from]]
    ensures Typed(f')
    ensures from in Snapshot(f) && Snapshot(f') == (Snapshot(f) - {from})[to := Snapshot(f)[from]]
  {
    var s, t := Snapshot(f'), (Snapshot(f) - {from})[to := Snapshot(f)[from]];
    assert s.Keys == t.Keys;
  }

  lemma WriteFrame(f: Fs, h: Handle, buf: seq<byte>, offset: int)
    requires Inv(f) && HandleOk(f, h)
    requires Pwrite(f, h, buf, offset).1.Ok?
    ensures Typed(f) && Unshared(f) && !f.nodes[h.node].dir
    ensures var f' := Pwrite(f, h, buf, offset).0;
            forall i | 0 <= i < |f.nodes| ::
              f'.nodes[i].dir == f.nodes[i].dir && (i != h.node ==> f'.nodes[i] == f.nodes[i])
  {
    assert Typed(f) && Unshared(f);
    hide Inv;
    PwriteMeans(f, h, buf, offset);
    PwriteKeepsKind(f, h, buf, offset);
    hide Typed, Pwrite;
  }

  /** A write shows up in the snapshot under its node's one name... */
  lemma NamedWrite(f: Fs, h: Handle, buf: seq<byte>, offset: int, n: Name)
    requires Inv(f) && HandleOk(f, h)
    requires Pwrite(f, h, buf, offset).1.Ok?
    requires n in f.names && f.names[n] == h.node
    ensures var f' := Pwrite(f, h, buf, offset).0;
            Snapshot(f') == Snapshot(f)[n := f'.nodes[h.node].data]
  {
    WriteFrame(f, h, buf, offset);
    hide Pwrite, Inv, Typed, Unshared, Snapshot;
    SnapshotOne(f, Pwrite(f, h, buf, offset).0, n);
  }

  /** ...and nowhere once that name is gone. */
  lemma UnnamedWrite(f: Fs, h: Handle, buf: seq<byte>, offset: int)
    requires Inv(f) && HandleOk(f, h)
    requires Pwrite(f, h, buf, offset).1.Ok?
    requires forall m <- f.names :: f.names[m] != h.node
    ensures Snapshot(Pwrite(f, h, buf, offset).0) == Snapshot(f)
  {
    WriteFrame(f, h, buf, offset);
    hide Pwrite, Inv;
  }

  lemma SnapshotOne(f: Fs, f': Fs, n: Name)
    requires Typed(f) && Typed(f') && Unshared(f) && f'.names == f.names && |f'.nodes| == |f.nodes|
    requires n in f.names && !f.nodes[f.names[n]].dir
    requires forall i | 0 <= i < |f.nodes| :: f'.nodes[i].dir == f.nodes[i].dir
    requires forall i | 0 <= i < |f.nodes| && i != f.names[n] :: f'.nodes[i] == f.nodes[i]
    ensures Snapshot(f') == Snapshot(f)[n := f'.nodes[f.names[n]].data]
  {
    var s, t := Snapshot(f'), Snapshot(f)[n := f'.nodes[f.names[n]].data];
    forall m | m in s ensures s[m] == t[m] {
      if m != n {
        assert f.names[m] != f.names[n];
      }
    }
    assert s.Keys == t.Keys;
  }

  // -------------------------------------------------------------- read-only

  predicate NoneWritable(w: World) {
    forall j | 0 <= j < |w.handles| :: !w.handles[j].writable
  }

  lemma ReadOnlyCall(w: World, op: Op)
    requires Ready(w) && w.fs.readOnly && NoneWritable(w)
    ensures Do(w, op).fs == w.fs && NoneWritable(Do(w, op))
  {
    hide Ready, Resolve, Text, ParentError, Create, Resized, Overwrite;
  }

  /** Whatever a guest calls, a read-only filesystem stays exactly as it was staged. */
  lemma {:induction false} ReadOnlyNeverChanges(w: World, ops: seq<Op>)
    requires Ready(w) && w.fs.readOnly && NoneWritable(w)
    ensures Run(w, ops).fs == w.fs
    decreases |ops|
  {
    hide Do, NoneWritable, Ready;
    if ops != [] {
      ReadOnlyCall(w, ops[0]);
      ReadOnlyNeverChanges(Do(w, ops[0]), ops[1..]);
    }
  }

  // -------------------------------------------------------------- the budgets

  lemma FileLimit(f: Fs, h: Handle, call: FileOp)
    requires Typed(f) && On(f, h) && f.limit.Some?
    ensures DoFile(f, h, call).0.limit == f.limit
  {
    hide Typed, Resized, Overwrite, Seek, Pread;
  }

  lemma LimitStep(w: World, op: Op)
    requires Ready(w) && w.fs.limit.Some?
    ensures Do(w, op).fs.limit == w.fs.limit
  {
    hide Resolve, Text, Resized, DoFile, Typed;
    if op.OpFile? && op.h < |w.handles| {
      FileLimit(w.fs, w.handles[op.h], op.call);
    }
  }

  /** Once a budget is recorded as exceeded, no later call replaces it. */
  lemma {:induction false} FirstLimitStays(w: World, ops: seq<Op>)
    requires Ready(w) && w.fs.limit.Some?
    ensures Run(w, ops).fs.limit == w.fs.limit
    decreases |ops|
  {
    hide Do, Ready;
    if ops != [] {
      LimitStep(w, ops[0]);
      FirstLimitStays(Do(w, ops[0]), ops[1..]);
    }
  }

  /** A write records a budget exactly when it fails with ERANGE. */
  lemma PwriteLimit(f: Fs, h: Handle, buf: seq<byte>, offset: int)
    requires Typed(f) && On(f, h) && f.limit.None?
    ensures var (f', r) := Pwrite(f, h, buf, offset);
            && (f'.limit.Some? <==> r == Err(ERANGE))
            && (f'.limit.Some? ==> f'.limit.value == OutputBytes)
  {
    hide Typed, Resized, Overwrite;
  }

  /** An open records a budget exactly when one of them is why it fails. */
  lemma OpenLimit(f: Fs, path: string, flags: Flags)
    requires Typed(f) && Charged(f) && f.limit.None?
    ensures var (f', r) := OpenFile(f, path, flags);
            && (f'.limit.Some? <==> r == Err(ERANGE) || (r == Err(ENAMETOOLONG) && flags.create && !f.readOnly))
            && (f'.limit.Some? ==> f'.limit.value == if r == Err(ERANGE) then OutputEntries else PathBytes)
  {
    hide Resolve, Text, Opened, Typed, Total;
    var (f1, at) := Locate(f, path, flags.create);
    if at.Ok? {
      var n := at.value.0;
      if n in f1.names {
        OpenedLimit(f1, n, flags);
      } else {
        var (f2, errno) := Create(f1, n, false);
        if errno.None? {
          OpenedLimit(f2, n, flags);
        }
      }
    }
  }

  /** Emptying a file needs no budget. */
  lemma OpenedLimit(f: Fs, n: Name, flags: Flags)
    requires Typed(f) && n in f.names && f.used <= f.limits.outputBytes
    ensures var (f', r) := Opened(f, n, flags);
            f'.limit == f.limit && r != Err(ERANGE) && r != Err(ENAMETOOLONG)
  {
    hide Resized;
  }

  // ------------------------------------------------------- opens that fail

  /** Whether this open gets as far as making a new file. */
  predicate Makes(f: Fs, path: string, flags: Flags)
    requires Typed(f)
  {
    var at := Locate(f, path, flags.create).1;
    && flags.create && !f.readOnly && at.Ok?
    && var (n, slash) := at.value;
       && n !in f.names && !slash && !flags.directory
       && ParentError(f, n).None?
       && |Text(n)| <= f.limits.pathBytes && f.created < f.limits.outputEntries
  }

  /**
   * A failing open changes no name, with one exception: asked to create and
   * truncate without write access, it leaves the new, empty file behind.
   */
  lemma FailedOpen(f: Fs, path: string, flags: Flags)
    requires Typed(f) && Charged(f)
    requires OpenFile(f, path, flags).1.Err?
    ensures OpenFile(f, path, flags).0.names != f.names
       <==> Makes(f, path, flags) && flags.trunc && !flags.rdwr && !flags.wronly
  {
    hide Resolve, Text, Opened, Typed;
    var (f1, at) := Locate(f, path, flags.create);
    if at.Ok? && at.value.0 !in f1.names {
      var n := at.value.0;
      var (f2, errno) := Create(f1, n, false);
      if errno.None? && Makes(f, path, flags) {
        assert n in f2.names;
        FreshlyOpened(f2, n, flags);
      }
    }
  }

  /** Such an open: it fails with EBADF, and the file is there. */
  lemma LeftBehind()
    ensures
      var f := Empty(false, Limits(8, 8, 8));
      var flags := Flags(false, false, true, false, true, false, false);
      var (f', r) := OpenFile(f, "a", flags);
      r == Err(EBADF) && ["a"] in f'.names && ["a"] !in f.names
  {
    var f := Empty(false, Limits(8, 8, 8));
    var flags := Flags(false, false, true, false, true, false, false);
    var n: Name := ["a"];
    assert Component(n[0]) && Text(n) == "a" && Dir(n) == [];
    ResolveIsIdempotent(n, 8 + longestMountPrefix);
    hide Resolve, Text;
    assert Locate(f, "a", true) == (f, Ok((n, false)));
    assert ParentError(f, n) == None && Create(f, n, false).1 == None;
    FreshlyOpened(Create(f, n, false).0, n, flags);
  }

  lemma FreshlyOpened(f: Fs, n: Name, flags: Flags)
    requires Typed(f) && n in f.names && f.nodes[f.names[n]] == Node([], false) && !flags.directory
    ensures Opened(f, n, flags).1.Err? ==> (flags.trunc && !flags.rdwr && !flags.wronly) || f.used > f.limits.outputBytes
    ensures flags.trunc && !flags.rdwr && !flags.wronly ==> Opened(f, n, flags).1 == Err(EBADF)
  {
    hide Typed;
  }

  // ------------------------------------------------------------------ seeking

  /**
   * For every int64 offset, the wrap-around of Go's addition is unobservable:
   * a seek succeeds exactly when the true sum lies within the budget, and then
   * leaves the handle there.
   */
  lemma SeekIsExact(f: Fs, h: Handle, offset: int, whence: Whence)
    requires Typed(f) && Charged(f) && HandleOk(f, h)
    requires -TWO63 <= offset < TWO63 && f.limits.outputBytes < TWO63
    requires !h.closed && !f.nodes[h.node].dir && !whence.SeekOther?
    ensures
      var base := if whence.SeekCurrent? then h.offset else if whence.SeekEnd? then |f.nodes[h.node].data| else 0;
      Seek(f, h, offset, whence)
      == if 0 <= base + offset <= f.limits.outputBytes then (h.(offset := base + offset), Ok(base + offset))
         else (h, Err(EINVAL))
  {
    TotalUpdate(f.nodes, h.node, f.nodes[h.node]);
    var base := if whence.SeekCurrent? then h.offset else |f.nodes[h.node].data|;
    WrapOnce(base + offset);
    hide Typed, Total, Wrap;
  }

  lemma WrapOnce(n: int)
    requires -TWO63 <= n < 3 * TWO63
    ensures Wrap(n) == if n < TWO63 then n else n - 2 * TWO63
  {
  }
}
