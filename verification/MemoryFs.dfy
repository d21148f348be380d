/**
 * The Go SDK's in-memory filesystem. Nodes are kept in the order they were
 * created and are named by their index, as they are by their inode number:
 * names and open handles share them, and a node outlives its name.
 */
module MemoryFs {
  import opened Prelude
  import opened GuestPath

  type byte = n: int | 0 <= n < 256

  datatype Errno =
    | ENOENT | ENOTDIR | EISDIR | EEXIST | EPERM | EROFS | EBADF | EINVAL | ERANGE | ENAMETOOLONG | ENOSYS

  datatype Budget = PathBytes | OutputEntries | OutputBytes

  datatype Limits = Limits(pathBytes: nat, outputEntries: nat, outputBytes: nat)

  datatype Node = Node(data: seq<byte>, dir: bool)

  /** `limit` is the first budget a guest exceeded. */
  datatype Fs = Fs(
    names: map<Name, nat>,
    nodes: seq<Node>,
    readOnly: bool,
    limits: Limits,
    used: int,
    created: nat,
    limit: Option<Budget>)

  datatype Flags = Flags(
    rdwr: bool, wronly: bool, create: bool, excl: bool, trunc: bool, append: bool, directory: bool)

  datatype Handle = Handle(
    node: nat, name: Name, offset: int, readable: bool, writable: bool, appendMode: bool, closed: bool)

  datatype Whence = SeekStart | SeekCurrent | SeekEnd | SeekOther

  /** The guest prefix the SDK may put before a path: "/include/". */
  const longestMountPrefix: nat := 9

  // ------------------------------------------------------------ the entries

  predicate Typed(f: Fs) {
    forall n <- f.names :: f.names[n] < |f.nodes|
  }

  predicate IsDir(f: Fs, n: Name)
    requires Typed(f)
  {
    n in f.names && f.nodes[f.names[n]].dir
  }

  predicate IsFile(f: Fs, n: Name)
    requires Typed(f)
  {
    n in f.names && !f.nodes[f.names[n]].dir
  }

  function Dir(n: Name): Name {
    if n == [] then [] else n[..|n| - 1]
  }

  function Add(f: Fs, n: Name, dir: bool, data: seq<byte>): (r: Fs)
    requires Typed(f)
    ensures Typed(r)
  {
    f.(names := f.names[n := |f.nodes|], nodes := f.nodes + [Node(data, dir)], used := f.used + |data|)
  }

  /** `newMemoryFS` without files: the root alone. */
  function Empty(readOnly: bool, limits: Limits): (f: Fs)
    ensures Typed(f)
  {
    Add(Fs(map[], [], readOnly, limits, 0, 0, None), [], true, [])
  }

  function Exceeded(f: Fs, b: Budget): Fs {
    f.(limit := if f.limit.None? then Some(b) else f.limit)
  }

  /** `chargeEntry` */
  function Charge(f: Fs, n: Name): (Fs, Option<Errno>) {
    if |Text(n)| > f.limits.pathBytes then (Exceeded(f, PathBytes), Some(ENAMETOOLONG))
    else if f.created >= f.limits.outputEntries then (Exceeded(f, OutputEntries), Some(ERANGE))
    else (f.(created := f.created + 1), None)
  }

  function Create(f: Fs, n: Name, dir: bool): (r: (Fs, Option<Errno>))
    requires Typed(f)
    ensures Typed(r.0)
  {
    var (f', errno) := Charge(f, n);
    if errno.Some? then (f', errno) else (Add(f', n, dir, []), None)
  }

  function ErrnoOf(e: PathError): Errno {
    match e
    case TooLong => ENAMETOOLONG
    case NotPermitted => EPERM
  }

  /** `resolve`: the name, and whether a trailing slash asks for a directory. */
  function Locate(f: Fs, path: string, creating: bool): (r: (Fs, Result<(Name, bool), Errno>))
    requires Typed(f)
    ensures Typed(r.0)
  {
    match Resolve(path, f.limits.pathBytes + longestMountPrefix)
    case Err(e) => (if e.TooLong? && creating && !f.readOnly then Exceeded(f, PathBytes) else f, Err(ErrnoOf(e)))
    case Ok(n) =>
      var slash := |path| > 0 && path[|path| - 1] == '/' && n != [];
      (f, if slash && IsFile(f, n) then Err(ENOTDIR) else Ok((n, slash)))
  }

  /** `parent` */
  function ParentError(f: Fs, n: Name): Option<Errno>
    requires Typed(f)
  {
    if Dir(n) !in f.names then Some(ENOENT) else if !IsDir(f, Dir(n)) then Some(ENOTDIR) else None
  }

  // ----------------------------------------------------------------- handles

  predicate On(f: Fs, h: Handle) {
    h.node < |f.nodes|
  }

  function Resized(data: seq<byte>, size: nat): seq<byte> {
    if size <= |data| then data[..size] else data + seq(size - |data|, _ => 0)
  }

  function WithData(f: Fs, i: nat, data: seq<byte>): (r: Fs)
    requires Typed(f) && i < |f.nodes|
    ensures Typed(r) && |r.nodes| == |f.nodes| && r.names == f.names
  {
    f.(nodes := f.nodes[i := f.nodes[i].(data := data)], used := f.used + |data| - |f.nodes[i].data|)
  }

  function Truncate(f: Fs, h: Handle, size: int): (r: (Fs, Option<Errno>))
    requires Typed(f) && On(f, h)
    ensures Typed(r.0) && |r.0.nodes| == |f.nodes| && r.0.names == f.names
  {
    if h.closed || !h.writable then (f, Some(EBADF))
    else if f.nodes[h.node].dir then (f, Some(EISDIR))
    else if size < 0 then (f, Some(EINVAL))
    else if size - |f.nodes[h.node].data| > f.limits.outputBytes - f.used then (Exceeded(f, OutputBytes), Some(ERANGE))
    else (WithData(f, h.node, Resized(f.nodes[h.node].data, size)), None)
  }

  /** `copy` into the node, within its size. */
  function Overwrite(data: seq<byte>, offset: nat, buf: seq<byte>): seq<byte>
    requires offset + |buf| <= |data|
  {
    data[..offset] + buf + data[offset + |buf|..]
  }

  function Pwrite(f: Fs, h: Handle, buf: seq<byte>, offset: int): (r: (Fs, Result<nat, Errno>))
    requires Typed(f) && On(f, h)
    ensures Typed(r.0) && |r.0.nodes| == |f.nodes| && r.0.names == f.names
  {
    var budget := f.limits.outputBytes;
    if h.closed || !h.writable then (f, Err(EBADF))
    else if offset < 0 then (f, Err(EINVAL))
    else if offset > budget || |buf| > budget - offset then (Exceeded(f, OutputBytes), Err(ERANGE))
    else
      var end := offset + |buf|;
      var (f', errno) := if end > |f.nodes[h.node].data| then Truncate(f, h, end) else (f, None);
      if errno.Some? then (f', Err(errno.value))
      else (WithData(f', h.node, Overwrite(f'.nodes[h.node].data, offset, buf)), Ok(|buf|))
  }

  lemma TruncateGrows(f: Fs, h: Handle, size: nat)
    requires Typed(f) && On(f, h) && Truncate(f, h, size).1.None?
    ensures Truncate(f, h, size).0.nodes == f.nodes[h.node := f.nodes[h.node].(data := Resized(f.nodes[h.node].data, size))]
    ensures |Resized(f.nodes[h.node].data, size)| == size
  {
  }

  function Write(f: Fs, h: Handle, buf: seq<byte>): (r: (Fs, Handle, Result<nat, Errno>))
    requires Typed(f) && On(f, h)
    ensures Typed(r.0) && |r.0.nodes| == |f.nodes| && r.0.names == f.names
  {
    var at := if h.appendMode then |f.nodes[h.node].data| else h.offset;
    var (f', n) := Pwrite(f, h, buf, at);
    (f', h.(offset := at + (if n.Ok? then n.value else 0)), n)
  }

  function Pread(f: Fs, h: Handle, count: nat, offset: int): Result<seq<byte>, Errno>
    requires Typed(f) && On(f, h)
  {
    if h.closed || !h.readable then Err(EBADF)
    else if f.nodes[h.node].dir then Err(EISDIR)
    else if offset < 0 then Err(EINVAL)
    else
      var data := f.nodes[h.node].data;
      if offset >= |data| then Ok([]) else Ok(data[offset..Min(offset + count, |data|)])
  }

  function Read(f: Fs, h: Handle, count: nat): (Handle, Result<seq<byte>, Errno>)
    requires Typed(f) && On(f, h)
  {
    var r := Pread(f, h, count, h.offset);
    (h.(offset := h.offset + (if r.Ok? then |r.value| else 0)), r)
  }

  const TWO63: int := 0x8000_0000_0000_0000

  /** Go's int64 addition. */
  function Wrap(n: int): int {
    (n + TWO63) % (2 * TWO63) - TWO63
  }

  /** Directory positions belong to Readdir and are left out here. */
  function Seek(f: Fs, h: Handle, offset: int, whence: Whence): (Handle, Result<int, Errno>)
    requires Typed(f) && On(f, h)
  {
    if h.closed then (h, Err(EBADF))
    else if f.nodes[h.node].dir then
      if !whence.SeekStart? || offset != 0 then (h, Err(EINVAL)) else (h, Ok(0))
    else if whence.SeekOther? then (h, Err(EINVAL))
    else
      var target :=
        match whence
        case SeekCurrent => Wrap(offset + h.offset)
        case SeekEnd => Wrap(offset + |f.nodes[h.node].data|)
        case _ => offset;
      if target < 0 || target > f.limits.outputBytes then (h, Err(EINVAL)) else (h.(offset := target), Ok(target))
  }

  // -------------------------------------------------------------- operations

  function Opening(flags: Flags, i: nat, n: Name): Handle {
    Handle(i, n, 0, !flags.wronly, flags.rdwr || flags.wronly, flags.append, false)
  }

  function OpenFile(f: Fs, path: string, flags: Flags): (r: (Fs, Result<Handle, Errno>))
    requires Typed(f)
    ensures Typed(r.0) && |r.0.nodes| >= |f.nodes|
    ensures r.1.Ok? ==> On(r.0, r.1.value)
  {
    var (f1, at) := Locate(f, path, flags.create);
    var writable := flags.rdwr || flags.wronly;
    if at.Err? then (f1, Err(at.error))
    else if f.readOnly && (writable || flags.create || flags.trunc || flags.append) then (f1, Err(EROFS))
    else
      var (n, slash) := at.value;
      if n !in f1.names then
        if !flags.create then (f1, Err(ENOENT))
        else if slash then (f1, Err(EISDIR))
        else if flags.directory then (f1, Err(ENOTDIR))
        else if ParentError(f1, n).Some? then (f1, Err(ParentError(f1, n).value))
        else
          var (f2, errno) := Create(f1, n, false);
          if errno.Some? then (f2, Err(errno.value)) else Opened(f2, n, flags)
      else if flags.create && flags.excl then (f1, Err(EEXIST))
      else Opened(f1, n, flags)
  }

  /** The end of OpenFile, once the node is there. */
  function Opened(f: Fs, n: Name, flags: Flags): (r: (Fs, Result<Handle, Errno>))
    requires Typed(f) && n in f.names
    ensures Typed(r.0) && |r.0.nodes| == |f.nodes| && r.0.names == f.names
    ensures r.1.Ok? ==> On(r.0, r.1.value)
  {
    var i := f.names[n];
    var h := Opening(flags, i, n);
    if f.nodes[i].dir && h.writable then (f, Err(EISDIR))
    else if !f.nodes[i].dir && flags.directory then (f, Err(ENOTDIR))
    else if flags.trunc then
      var (f', errno) := Truncate(f, h, 0);
      (f', if errno.Some? then Err(errno.value) else Ok(h))
    else (f, Ok(h))
  }

  function Mkdir(f: Fs, path: string): (r: (Fs, Option<Errno>))
    requires Typed(f)
    ensures Typed(r.0) && |r.0.nodes| >= |f.nodes|
  {
    if f.readOnly then (f, Some(EROFS))
    else
      match Resolve(path, f.limits.pathBytes + longestMountPrefix)
      case Err(e) => (if e.TooLong? then Exceeded(f, PathBytes) else f, Some(ErrnoOf(e)))
      case Ok(n) =>
        if n in f.names then (f, Some(EEXIST))
        else if ParentError(f, n).Some? then (f, ParentError(f, n))
        else Create(f, n, true)
  }

  function Unlink(f: Fs, path: string): (r: (Fs, Option<Errno>))
    requires Typed(f)
    ensures Typed(r.0) && r.0.nodes == f.nodes
  {
    if f.readOnly then (f, Some(EROFS))
    else
      var (f1, at) := Locate(f, path, false);
      if at.Err? then (f1, Some(at.error))
      else
        var n := at.value.0;
        if n !in f.names then (f1, Some(ENOENT))
        else if IsDir(f, n) then (f1, Some(EISDIR))
        else (f1.(names := f1.names - {n}), None)
  }

  function Rename(f: Fs, source: string, target: string): (r: (Fs, Option<Errno>))
    requires Typed(f)
    ensures Typed(r.0) && r.0.nodes == f.nodes
  {
    if f.readOnly then (f, Some(EROFS))
    else
      var (f1, at1) := Locate(f, source, false);
      if at1.Err? then (f1, Some(at1.error))
      else
        var (f2, at2) := Locate(f1, target, true);
        if at2.Err? then (f2, Some(at2.error)) else Move(f2, at1.value.0, at2.value.0)
  }

  function Move(f: Fs, from: Name, to: Name): (r: (Fs, Option<Errno>))
    requires Typed(f)
    ensures Typed(r.0) && r.0.nodes == f.nodes
  {
    if from !in f.names then (f, Some(ENOENT))
    else if IsDir(f, from) then (f, Some(ENOSYS))
    else if ParentError(f, to).Some? then (f, ParentError(f, to))
    else if IsDir(f, to) then (f, Some(EISDIR))
    else if from == to then (f, None)
    else
      var (f', errno) := if to in f.names then (f, None) else Charge(f, to);
      if errno.Some? then (f', errno)
      else (f'.(names := (f.names - {from})[to := f.names[from]]), None)
  }

  /** `snapshot`: the live files, by value. */
  function Snapshot(f: Fs): map<Name, seq<byte>>
    requires Typed(f)
  {
    map n | n in f.names && !f.nodes[f.names[n]].dir :: f.nodes[f.names[n]].data
  }

  // ------------------------------------------------------------ whole guests

  datatype World = World(fs: Fs, handles: seq<Handle>)

  datatype Op =
    | OpOpen(path: string, flags: Flags)
    | OpMkdir(path: string)
    | OpUnlink(path: string)
    | OpRename(source: string, target: string)
    | OpFile(h: nat, call: FileOp)

  datatype FileOp =
    | AtPwrite(buf: seq<byte>, offset: int)
    | AtWrite(buf: seq<byte>)
    | AtRead(count: nat)
    | AtTruncate(size: int)
    | AtSeek(offset: int, whence: Whence)
    | AtAppend(enable: bool)
    | AtClose

  predicate Ready(w: World) {
    Typed(w.fs) && forall j | 0 <= j < |w.handles| :: On(w.fs, w.handles[j])
  }

  /** One system call; a handle that does not exist is ignored. */
  function Do(w: World, op: Op): (r: World)
    requires Ready(w)
    ensures Ready(r)
  {
    match op
    case OpOpen(path, flags) =>
      var (f, h) := OpenFile(w.fs, path, flags);
      World(f, if h.Ok? then w.handles + [h.value] else w.handles)
    case OpMkdir(path) => w.(fs := Mkdir(w.fs, path).0)
    case OpUnlink(path) => w.(fs := Unlink(w.fs, path).0)
    case OpRename(source, target) => w.(fs := Rename(w.fs, source, target).0)
    case OpFile(h, call) =>
      if h >= |w.handles| then w
      else
        var (f, h') := DoFile(w.fs, w.handles[h], call);
        World(f, w.handles[h := h'])
  }

  function DoFile(f: Fs, h: Handle, call: FileOp): (r: (Fs, Handle))
    requires Typed(f) && On(f, h)
    ensures Typed(r.0) && |r.0.nodes| == |f.nodes| && r.0.names == f.names && r.1.node == h.node
  {
    match call
    case AtPwrite(buf, offset) => (Pwrite(f, h, buf, offset).0, h)
    case AtWrite(buf) => var (f', h', _) := Write(f, h, buf); (f', h')
    case AtRead(count) => (f, Read(f, h, count).0)
    case AtTruncate(size) => (Truncate(f, h, size).0, h)
    case AtSeek(offset, whence) => (f, Seek(f, h, offset, whence).0)
    case AtAppend(enable) => (f, if h.closed then h else h.(appendMode := enable))
    case AtClose => (f, h.(closed := true))
  }

  function Run(w: World, ops: seq<Op>): (r: World)
    requires Ready(w)
    ensures Ready(r)
    decreases |ops|
  {
    if ops == [] then w else Run(Do(w, ops[0]), ops[1..])
  }

  /** A run goes on from where the run before its last call led. */
  lemma {:induction false} RunSnoc(w: World, ops: seq<Op>, op: Op)
    requires Ready(w)
    ensures Run(w, ops + [op]) == Do(Run(w, ops), op)
    decreases |ops|
  {
    hide Ready, Do;
    if ops == [] {
      assert Run(Do(w, op), []) == Do(w, op) && ([] + [op])[1..] == [];
    } else {
      assert (ops + [op])[1..] == ops[1..] + [op];
      RunSnoc(Do(w, ops[0]), ops[1..], op);
    }
  }
}
