/**
 * Each call of the in-memory filesystem, told by what it changes and when it
 * fails: which path is which, where sequential reads and writes go, and what
 * a new handle can do.
 */
module MemoryFsCalls {
  import opened Prelude
  import opened GuestPath
  import opened MemoryFs
  import MemoryFsMeaning

  // ------------------------------------------------------------------- paths

  function Longest(f: Fs): nat {
    f.limits.pathBytes + longestMountPrefix
  }

  /** A path that asks for a directory with its trailing slash, and names a file. */
  predicate SlashedFile(f: Fs, path: string, n: Name)
    requires Typed(f)
  {
    path != "" && path[|path| - 1] == '/' && n != [] && IsFile(f, n)
  }

  predicate Slashed(path: string, n: Name) {
    path != "" && path[|path| - 1] == '/' && n != []
  }

  /** A new entry may not be named so, or there may be no more entries. */
  function Refusal(f: Fs, n: Name): Option<Errno> {
    if |Text(n)| > f.limits.pathBytes then Some(ENAMETOOLONG)
    else if f.created >= f.limits.outputEntries then Some(ERANGE)
    else None
  }

  /** The first budget that a refused entry exceeds is on record. */
  predicate Records(f: Fs, f': Fs, errno: Option<Errno>) {
    f'.limit ==
      if f.limit.Some? then f.limit
      else if errno == Some(ENAMETOOLONG) then Some(PathBytes)
      else if errno == Some(ERANGE) then Some(OutputEntries)
      else None
  }

  /** Nothing but the record of a budget changed. */
  predicate Untouched(f: Fs, f': Fs) {
    f' == f.(limit := f'.limit)
  }

  // ------------------------------------------------------------------ rename

  function RenameErrno(f: Fs, source: string, target: string, n: Name, m: Name): Option<Errno>
    requires Typed(f)
  {
    if SlashedFile(f, source, n) || SlashedFile(f, target, m) then Some(ENOTDIR)
    else if n !in f.names then Some(ENOENT)
    else if IsDir(f, n) then Some(ENOSYS)
    else if Dir(m) !in f.names then Some(ENOENT)
    else if !IsDir(f, Dir(m)) then Some(ENOTDIR)
    else if IsDir(f, m) then Some(EISDIR)
    else if m in f.names then None
    else Refusal(f, m)
  }

  /** The source's file gets the target's name; only the target needs a parent and an entry. */
  lemma RenameMoves(f: Fs, source: string, target: string, n: Name, m: Name)
    requires Typed(f) && !f.readOnly
    requires Resolve(source, Longest(f)) == Ok(n) && Resolve(target, Longest(f)) == Ok(m)
    ensures
      var (f', errno) := Rename(f, source, target);
      && errno == RenameErrno(f, source, target, n, m)
      && Records(f, f', errno)
      && (errno.Some? ==> Untouched(f, f'))
      && (errno.None? ==>
            && n in Snapshot(f)
            && Snapshot(f') == (if n == m then Snapshot(f) else (Snapshot(f) - {n})[m := Snapshot(f)[n]])
            && f'.nodes == f.nodes && f'.used == f.used
            && f'.created == f.created + if m in f.names then 0 else 1)
  {
    hide Resolve, Text, Snapshot;
    if Rename(f, source, target).1.None? {
      MemoryFsMeaning.MoveSnapshot(f, n, m);
    }
  }

  /** A path that does not resolve fails the call; only the target's length is charged to the guest. */
  lemma RenameRefused(f: Fs, source: string, target: string)
    requires Typed(f) && !f.readOnly
    requires Resolve(source, Longest(f)).Err? || Resolve(target, Longest(f)).Err?
    ensures
      var (f', errno) := Rename(f, source, target);
      var from, to := Resolve(source, Longest(f)), Resolve(target, Longest(f));
      && Untouched(f, f')
      && (match from
          case Err(e) => errno == Some(ErrnoOf(e)) && f' == f
          case Ok(n) =>
            if SlashedFile(f, source, n) then errno == Some(ENOTDIR) && f' == f
            else errno == Some(ErrnoOf(to.error)) && Records(f, f', errno))
  {
    hide Resolve, Text, Move;
  }

  // -------------------------------------------------------------------- open

  function OpenErrno(f: Fs, path: string, flags: Flags, n: Name): Option<Errno>
    requires Typed(f)
  {
    var writable := flags.rdwr || flags.wronly;
    if SlashedFile(f, path, n) then Some(ENOTDIR)
    else if f.readOnly && (writable || flags.create || flags.trunc || flags.append) then Some(EROFS)
    else if n in f.names then
      if flags.create && flags.excl then Some(EEXIST)
      else if IsDir(f, n) && writable then Some(EISDIR)
      else if IsFile(f, n) && flags.directory then Some(ENOTDIR)
      else if flags.trunc && !writable then Some(EBADF)
      else None
    else if !flags.create then Some(ENOENT)
    else if Slashed(path, n) then Some(EISDIR)
    else if flags.directory then Some(ENOTDIR)
    else if Dir(n) !in f.names then Some(ENOENT)
    else if !IsDir(f, Dir(n)) then Some(ENOTDIR)
    else if Refusal(f, n).Some? then Refusal(f, n)
    else if flags.trunc && !writable then Some(EBADF)
    else None
  }

  /** What the handle can do is what the flags ask for, and it starts at the beginning. */
  predicate HandleAs(h: Handle, flags: Flags, n: Name, node: nat) {
    && h.node == node && h.name == n && h.offset == 0 && !h.closed
    && (h.readable <==> !flags.wronly)
    && (h.writable <==> flags.rdwr || flags.wronly)
    && (h.appendMode <==> flags.append)
  }

  /** An open of a name that exists; truncating frees its bytes. */
  predicate OpensOld(f: Fs, f': Fs, flags: Flags, n: Name)
    requires Typed(f)
  {
    && n in f.names && f'.names == f.names && f'.created == f.created
    && |f'.nodes| == |f.nodes|
    && (forall i | 0 <= i < |f.nodes| && i != f.names[n] :: f'.nodes[i] == f.nodes[i])
    && f'.nodes[f.names[n]] == (if flags.trunc then f.nodes[f.names[n]].(data := []) else f.nodes[f.names[n]])
    && f'.used == f.used - if flags.trunc then |f.nodes[f.names[n]].data| else 0
  }

  /** An open that makes a new, empty file. */
  predicate OpensNew(f: Fs, f': Fs, n: Name) {
    && n !in f.names && f'.names == f.names[n := |f.nodes|] && f'.created == f.created + 1
    && f'.nodes == f.nodes + [Node([], false)] && f'.used == f.used
  }

  lemma OpenMeans(f: Fs, path: string, flags: Flags, n: Name)
    requires Typed(f) && f.used <= f.limits.outputBytes
    requires Resolve(path, Longest(f)) == Ok(n)
    ensures
      var (f', r) := OpenFile(f, path, flags);
      && (if r.Err? then OpenErrno(f, path, flags, n) == Some(r.error) else OpenErrno(f, path, flags, n) == None)
      && (r.Ok? ==>
            && n in f'.names && HandleAs(r.value, flags, n, f'.names[n])
            && if n in f.names then OpensOld(f, f', flags, n) else OpensNew(f, f', n))
  {
    hide Resolve, Text;
    if n in f.names {
      OpenedOld(f, flags, n);
    } else if Refusal(f, n).None? {
      OpenedNew(f, flags, n);
    }
    hide Opened, Opening, OpensOld, OpensNew, HandleAs;
  }

  lemma OpenedOld(f: Fs, flags: Flags, n: Name)
    requires Typed(f) && f.used <= f.limits.outputBytes && n in f.names
    ensures
      var (f', r) := Opened(f, n, flags);
      && (if IsDir(f, n) && (flags.rdwr || flags.wronly) then r == Err(EISDIR)
          else if IsFile(f, n) && flags.directory then r == Err(ENOTDIR)
          else if flags.trunc && !flags.rdwr && !flags.wronly then r == Err(EBADF)
          else r.Ok?)
      && (r.Ok? ==> HandleAs(r.value, flags, n, f'.names[n]) && OpensOld(f, f', flags, n))
  {
  }

  lemma OpenedNew(f: Fs, flags: Flags, n: Name)
    requires Typed(f) && f.used <= f.limits.outputBytes && n !in f.names && Refusal(f, n).None?
    ensures
      var f1 := Create(f, n, false).0;
      && Create(f, n, false).1.None? && n in f1.names
      && var (f', r) := Opened(f1, n, flags);
         && (if flags.directory then r == Err(ENOTDIR)
             else if flags.trunc && !flags.rdwr && !flags.wronly then r == Err(EBADF)
             else r.Ok?)
         && (r.Ok? ==> HandleAs(r.value, flags, n, f'.names[n]) && OpensNew(f, f', n))
  {
    hide Text;
  }

  lemma OpenRefused(f: Fs, path: string, flags: Flags)
    requires Typed(f) && Resolve(path, Longest(f)).Err?
    ensures
      var (f', r) := OpenFile(f, path, flags);
      && r == Err(ErrnoOf(Resolve(path, Longest(f)).error))
      && if flags.create && !f.readOnly then Untouched(f, f') && Records(f, f', Some(r.error)) else f' == f
  {
    hide Resolve, Text;
  }

  // ------------------------------------------------------- mkdir and unlink

  lemma MkdirMeans(f: Fs, path: string, n: Name)
    requires Typed(f) && !f.readOnly && Resolve(path, Longest(f)) == Ok(n)
    ensures
      var (f', errno) := Mkdir(f, path);
      && errno == (if n in f.names then Some(EEXIST)
                   else if Dir(n) !in f.names then Some(ENOENT)
                   else if !IsDir(f, Dir(n)) then Some(ENOTDIR)
                   else Refusal(f, n))
      && Records(f, f', errno)
      && (errno.Some? ==> Untouched(f, f'))
      && (errno.None? ==>
            && f'.names == f.names[n := |f.nodes|] && f'.nodes == f.nodes + [Node([], true)]
            && f'.created == f.created + 1 && f'.used == f.used)
  {
    hide Resolve, Text;
  }

  lemma UnlinkMeans(f: Fs, path: string, n: Name)
    requires Typed(f) && !f.readOnly && Resolve(path, Longest(f)) == Ok(n)
    ensures
      var (f', errno) := Unlink(f, path);
      && errno == (if SlashedFile(f, path, n) then Some(ENOTDIR)
                   else if n !in f.names then Some(ENOENT)
                   else if IsDir(f, n) then Some(EISDIR)
                   else None)
      && f' == if errno.None? then f.(names := f.names - {n}) else f
  {
    hide Resolve, Text;
  }

  /** A read-only filesystem refuses them all. */
  lemma ReadOnlyRefuses(f: Fs, path: string, target: string)
    requires Typed(f) && f.readOnly
    ensures Mkdir(f, path) == (f, Some(EROFS)) && Unlink(f, path) == (f, Some(EROFS))
    ensures Rename(f, path, target) == (f, Some(EROFS))
  {
  }

  // -------------------------------------------------------------- truncation

  function TruncateErrno(f: Fs, h: Handle, size: int): Option<Errno>
    requires Typed(f) && On(f, h)
  {
    if h.closed || !h.writable then Some(EBADF)
    else if f.nodes[h.node].dir then Some(EISDIR)
    else if size < 0 then Some(EINVAL)
    else if f.used + size - |f.nodes[h.node].data| > f.limits.outputBytes then Some(ERANGE)
    else None
  }

  /** What is left is the head of the data; what is new is zero; the charge follows the length. */
  lemma TruncateMeans(f: Fs, h: Handle, size: int)
    requires Typed(f) && On(f, h)
    ensures
      var (f', errno) := Truncate(f, h, size);
      var data, data' := f.nodes[h.node].data, f'.nodes[h.node].data;
      && errno == TruncateErrno(f, h, size)
      && (errno.Some? ==> f'.nodes == f.nodes && f'.used == f.used)
      && (errno.None? ==>
            && |data'| == size
            && (forall k | 0 <= k < size :: data'[k] == if k < |data| then data[k] else 0)
            && f'.nodes == f.nodes[h.node := f.nodes[h.node].(data := data')]
            && f'.used == f.used + size - |data|)
  {
    hide Typed;
  }

  // ---------------------------------------------------------------- writing

  function PwriteErrno(f: Fs, h: Handle, count: nat, offset: int): Option<Errno>
    requires Typed(f) && On(f, h)
  {
    var data := f.nodes[h.node].data;
    if h.closed || !h.writable then Some(EBADF)
    else if offset < 0 then Some(EINVAL)
    else if offset + count > f.limits.outputBytes then Some(ERANGE)
    else if offset + count > |data| then TruncateErrno(f, h, offset + count)
    else None
  }

  lemma PwriteFails(f: Fs, h: Handle, buf: seq<byte>, offset: int)
    requires Typed(f) && On(f, h)
    ensures
      var (f', r) := Pwrite(f, h, buf, offset);
      && (if r.Err? then PwriteErrno(f, h, |buf|, offset) == Some(r.error) else PwriteErrno(f, h, |buf|, offset) == None)
      && (r.Ok? ==> r.value == |buf| && f'.used == f.used + |f'.nodes[h.node].data| - |f.nodes[h.node].data|)
  {
    hide Typed, Resized;
    if 0 <= offset && offset + |buf| > |f.nodes[h.node].data| && Truncate(f, h, offset + |buf|).1.None? {
      TruncateGrows(f, h, offset + |buf|);
    }
  }

  /** Where a handle writes next: at its offset, or at the end of the file in append mode. */
  function Place(f: Fs, h: Handle): int
    requires Typed(f) && On(f, h)
  {
    if h.appendMode then |f.nodes[h.node].data| else h.offset
  }

  /** A write goes to the handle's place and moves it past what was written. */
  lemma WriteMeans(f: Fs, h: Handle, buf: seq<byte>)
    requires Typed(f) && On(f, h)
    ensures
      var (f', h', r) := Write(f, h, buf);
      && (f', r) == Pwrite(f, h, buf, Place(f, h))
      && h' == h.(offset := Place(f, h) + if r.Ok? then |buf| else 0)
  {
    hide Typed, Pwrite;
    PwriteFails(f, h, buf, Place(f, h));
  }

  /** The bytes that a successful write leaves. */
  function Put(data: seq<byte>, buf: seq<byte>, offset: nat): seq<byte> {
    seq(Max(|data|, offset + |buf|), k requires 0 <= k => MemoryFsMeaning.Written(data, buf, offset, k))
  }

  lemma PwritePuts(f: Fs, h: Handle, buf: seq<byte>, offset: int)
    requires Typed(f) && On(f, h) && Pwrite(f, h, buf, offset).1.Ok?
    ensures 0 <= offset
    ensures Pwrite(f, h, buf, offset).0.nodes
         == f.nodes[h.node := f.nodes[h.node].(data := Put(f.nodes[h.node].data, buf, offset))]
  {
    MemoryFsMeaning.PwriteMeans(f, h, buf, offset);
    MemoryFsMeaning.PwriteKeepsKind(f, h, buf, offset);
    hide Typed, Pwrite;
    var f' := Pwrite(f, h, buf, offset).0;
    assert f'.nodes[h.node].data == Put(f.nodes[h.node].data, buf, offset);
  }

  lemma PutTwice(data: seq<byte>, a: seq<byte>, b: seq<byte>, offset: nat)
    ensures Put(Put(data, a, offset), b, offset + |a|) == Put(data, a + b, offset)
  {
  }

  /** Two writes on one handle are one write of both: the second goes on where the first ended. */
  lemma WritesJoin(f: Fs, h: Handle, a: seq<byte>, b: seq<byte>)
    requires Typed(f) && On(f, h)
    requires var (f1, h1, r1) := Write(f, h, a); r1.Ok? && Write(f1, h1, b).2.Ok?
    ensures
      var (f1, h1, _) := Write(f, h, a);
      var (f2, h2, _) := Write(f1, h1, b);
      && 0 <= Place(f, h)
      && f2.nodes == f.nodes[h.node := f.nodes[h.node].(data := Put(f.nodes[h.node].data, a + b, Place(f, h)))]
      && h2 == h.(offset := Place(f, h) + |a| + |b|)
  {
    var (f1, h1, r1) := Write(f, h, a);
    WriteMeans(f, h, a);
    PwritePuts(f, h, a, Place(f, h));
    WriteMeans(f1, h1, b);
    PwritePuts(f1, h1, b, Place(f1, h1));
    hide Typed, Pwrite, Write, Put;
    var data := f.nodes[h.node].data;
    if h.appendMode {
      AppendPuts(data, a);
      AppendPuts(data + a, b);
      AppendPuts(data, a + b);
      assert data + a + b == data + (a + b);
    } else {
      PutTwice(data, a, b, h.offset);
    }
  }

  lemma AppendPuts(data: seq<byte>, buf: seq<byte>)
    ensures Put(data, buf, |data|) == data + buf
  {
  }

  /** In append mode a write extends the file, wherever the offset was. */
  lemma AppendExtends(f: Fs, h: Handle, buf: seq<byte>)
    requires Typed(f) && On(f, h) && h.appendMode && Write(f, h, buf).2.Ok?
    ensures var (f', h', _) := Write(f, h, buf);
            && f'.nodes == f.nodes[h.node := f.nodes[h.node].(data := f.nodes[h.node].data + buf)]
            && h'.offset == |f'.nodes[h.node].data|
  {
    WriteMeans(f, h, buf);
    PwritePuts(f, h, buf, Place(f, h));
    AppendPuts(f.nodes[h.node].data, buf);
    hide Typed, Pwrite, Write, Put;
  }

  // ---------------------------------------------------------------- reading

  function PreadErrno(f: Fs, h: Handle, offset: int): Option<Errno>
    requires Typed(f) && On(f, h)
  {
    if h.closed || !h.readable then Some(EBADF)
    else if f.nodes[h.node].dir then Some(EISDIR)
    else if offset < 0 then Some(EINVAL)
    else None
  }

  /** What the file holds from the offset on, as far as it goes. */
  function Slice(data: seq<byte>, offset: nat, count: nat): seq<byte> {
    if offset >= |data| then [] else data[offset..Min(offset + count, |data|)]
  }

  lemma PreadMeans(f: Fs, h: Handle, count: nat, offset: int)
    requires Typed(f) && On(f, h)
    ensures match PreadErrno(f, h, offset)
            case Some(errno) => Pread(f, h, count, offset) == Err(errno)
            case None => Pread(f, h, count, offset) == Ok(Slice(f.nodes[h.node].data, offset, count))
  {
  }

  lemma ReadMeans(f: Fs, h: Handle, count: nat)
    requires Typed(f) && On(f, h)
    ensures var (h', r) := Read(f, h, count);
            && r == Pread(f, h, count, h.offset)
            && h' == h.(offset := h.offset + if r.Ok? then |r.value| else 0)
  {
  }

  lemma SlicesJoin(data: seq<byte>, offset: nat, c: nat, d: nat)
    ensures Slice(data, offset, c) + Slice(data, offset + |Slice(data, offset, c)|, d) == Slice(data, offset, c + d)
  {
  }

  /** Two reads on one handle are one read of both, and leave the handle at the same place. */
  lemma ReadsJoin(f: Fs, h: Handle, c: nat, d: nat)
    requires Typed(f) && On(f, h) && Read(f, h, c).1.Ok?
    ensures
      var (h1, r1) := Read(f, h, c);
      var (h2, r2) := Read(f, h1, d);
      var (h', r) := Read(f, h, c + d);
      r2.Ok? && r == Ok(r1.value + r2.value) && h2 == h'
  {
    var (h1, r1) := Read(f, h, c);
    ReadMeans(f, h, c);
    PreadMeans(f, h, c, h.offset);
    ReadMeans(f, h1, d);
    PreadMeans(f, h1, d, h1.offset);
    ReadMeans(f, h, c + d);
    PreadMeans(f, h, c + d, h.offset);
    SlicesJoin(f.nodes[h.node].data, h.offset, c, d);
    hide Typed, Pread, Read, Slice;
  }

  /** Bytes written in pieces through one handle are read in pieces through another. */
  lemma WrittenThenRead(f: Fs, h: Handle, g: Handle, a: seq<byte>, b: seq<byte>)
    requires Typed(f) && On(f, h) && !f.nodes[h.node].dir && f.nodes[h.node].data == []
    requires h.offset == 0 && g.offset == 0 && g.node == h.node && g.readable && !g.closed
    requires var (f1, h1, r1) := Write(f, h, a); r1.Ok? && Write(f1, h1, b).2.Ok?
    ensures
      var (f1, h1, _) := Write(f, h, a);
      var f2 := Write(f1, h1, b).0;
      var (g1, r1) := Read(f2, g, |a|);
      r1 == Ok(a) && Read(f2, g1, |b|).1 == Ok(b)
  {
    WritesJoin(f, h, a, b);
    AppendPuts([], a + b);
    var (f1, h1, _) := Write(f, h, a);
    var f2 := Write(f1, h1, b).0;
    hide Typed, Write, Put;
    assert f2.nodes[g.node].data == a + b && !f2.nodes[g.node].dir;
    assert [] + (a + b) == a + b;
  }

  /** A directory is only rewound, and no other origin than the three is known. */
  lemma SeekRefuses(f: Fs, h: Handle, n: int, whence: Whence)
    requires Typed(f) && On(f, h) && !h.closed
    ensures f.nodes[h.node].dir ==> Seek(f, h, n, whence) == (h, if whence == SeekStart && n == 0 then Ok(0) else Err(EINVAL))
    ensures whence.SeekOther? ==> Seek(f, h, n, whence) == (h, Err(EINVAL))
  {
  }

  /** A closed handle can do nothing. */
  lemma ClosedFails(f: Fs, h: Handle, buf: seq<byte>, count: nat, n: int, whence: Whence)
    requires Typed(f) && On(f, h) && h.closed
    ensures Pread(f, h, count, n) == Err(EBADF) && Read(f, h, count) == (h, Err(EBADF))
    ensures Pwrite(f, h, buf, n) == (f, Err(EBADF)) && Write(f, h, buf).0 == f && Write(f, h, buf).2 == Err(EBADF)
    ensures Truncate(f, h, n) == (f, Some(EBADF)) && Seek(f, h, n, whence) == (h, Err(EBADF))
  {
  }
}
