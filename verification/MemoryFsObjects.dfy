/**
 * The filesystem and its open files as objects updated in place, as the Go
 * SDK has them. Every method does exactly what MemoryFs says.
 */
module MemoryFsObjects {
  import opened Prelude
  import opened GuestPath
  import F = MemoryFs
  import S = MemoryFsSafety

  type byte = F.byte
  type Errno = F.Errno

  /**
   * `Valid` holds of every filesystem, staged inputs too. What an output
   * filesystem keeps beyond it, `S.Inv`, every method that changes one keeps.
   */
  class FileSystem {
    var names: map<Name, nat>
    var nodes: seq<F.Node>
    var readOnly: bool
    const limits: F.Limits
    var used: int
    var created: nat
    var limit: Option<F.Budget>

    function View(): F.Fs
      reads this
    {
      F.Fs(names, nodes, readOnly, limits, used, created, limit)
    }

    ghost predicate Valid()
      reads this
    {
      F.Typed(View())
    }

    /** A filesystem of its root alone, still open for staging. */
    constructor (limits: F.Limits)
      ensures Valid() && View() == F.Empty(false, limits)
    {
      this.limits := limits;
      names, nodes, readOnly, used, created, limit := map[[] := 0], [F.Node([], true)], false, 0, 0, None;
    }

    method Seal()
      modifies `readOnly
      ensures View() == old(View()).(readOnly := true)
    {
      readOnly := true;
    }

    method Add(n: Name, dir: bool, data: seq<byte>)
      requires Valid()
      modifies `names, `nodes, `used
      ensures Valid() && View() == F.Add(old(View()), n, dir, data)
    {
      names := names[n := |nodes|];
      nodes := nodes + [F.Node(data, dir)];
      used := used + |data|;
    }

    method Exceeded(b: F.Budget, e: Errno) returns (errno: Errno)
      modifies `limit
      ensures View() == F.Exceeded(old(View()), b) && errno == e
    {
      if limit.None? {
        limit := Some(b);
      }
      errno := e;
    }

    method ChargeEntry(n: Name) returns (errno: Option<Errno>)
      modifies `limit, `created
      ensures (View(), errno) == F.Charge(old(View()), n)
    {
      if |Text(n)| > limits.pathBytes {
        var e := Exceeded(F.PathBytes, F.ENAMETOOLONG);
        return Some(e);
      }
      if created >= limits.outputEntries {
        var e := Exceeded(F.OutputEntries, F.ERANGE);
        return Some(e);
      }
      created := created + 1;
      errno := None;
    }

    method Create(n: Name, dir: bool) returns (errno: Option<Errno>)
      requires Valid()
      modifies `limit, `created, `names, `nodes, `used
      ensures Valid() && (View(), errno) == F.Create(old(View()), n, dir)
    {
      errno := ChargeEntry(n);
      if errno.None? {
        Add(n, dir, []);
      }
    }

    method Locate(path: string, creating: bool) returns (r: Result<(Name, bool), Errno>)
      requires Valid()
      modifies `limit
      ensures Valid() && (View(), r) == F.Locate(old(View()), path, creating)
    {
      var resolved := GuestPath.GuestPath(path, limits.pathBytes + F.longestMountPrefix);
      if resolved == Err(TooLong) && creating && !readOnly {
        var e := Exceeded(F.PathBytes, F.ENAMETOOLONG);
        return Err(e);
      }
      if resolved.Err? {
        return Err(F.ErrnoOf(resolved.error));
      }
      var n := resolved.value;
      var slash := |path| > 0 && path[|path| - 1] == '/' && n != [];
      if slash && n in names && !nodes[names[n]].dir {
        return Err(F.ENOTDIR);
      }
      r := Ok((n, slash));
    }

    method Parent(n: Name) returns (errno: Option<Errno>)
      requires Valid()
      ensures errno == F.ParentError(View(), n)
    {
      if F.Dir(n) !in names {
        return Some(F.ENOENT);
      }
      if !nodes[names[F.Dir(n)]].dir {
        return Some(F.ENOTDIR);
      }
      errno := None;
    }

    method OpenFile(path: string, flags: F.Flags) returns (r: Result<OpenedFile, Errno>)
      requires Valid()
      modifies `limit, `created, `names, `nodes, `used
      ensures Valid()
      ensures old(S.Inv(View())) ==> S.Inv(View())
      ensures
        var (f, h) := F.OpenFile(old(View()), path, flags);
        && View() == f
        && (h.Err? ==> r == Err(h.error))
        && (h.Ok? ==> r.Ok? && fresh(r.value) && r.value.fs == this && r.value.View() == h.value && r.value.Valid())
    {
      hide S.Inv;
      if S.Inv(View()) {
        S.OpenInv(View(), path, flags);
      }
      hide F.Opened;
      var at := Locate(path, flags.create);
      if at.Err? {
        return Err(at.error);
      }
      var writable := flags.rdwr || flags.wronly;
      if readOnly && (writable || flags.create || flags.trunc || flags.append) {
        return Err(F.EROFS);
      }
      var (n, slash) := at.value;
      if n !in names {
        if !flags.create {
          return Err(F.ENOENT);
        }
        if slash || flags.directory {
          return Err(if slash then F.EISDIR else F.ENOTDIR);
        }
        var errno := Parent(n);
        if errno.Some? {
          return Err(errno.value);
        }
        errno := Create(n, false);
        if errno.Some? {
          return Err(errno.value);
        }
      } else if flags.create && flags.excl {
        return Err(F.EEXIST);
      }
      r := Finish(n, flags);
    }

    /** The end of OpenFile. */
    method Finish(n: Name, flags: F.Flags) returns (r: Result<OpenedFile, Errno>)
      requires Valid() && n in names
      modifies `limit, `nodes, `used
      ensures Valid()
      ensures
        var (f, h) := F.Opened(old(View()), n, flags);
        && View() == f
        && (h.Err? ==> r == Err(h.error))
        && (h.Ok? ==> r.Ok? && fresh(r.value) && r.value.fs == this && r.value.View() == h.value && r.value.Valid())
    {
      var i := names[n];
      if nodes[i].dir && (flags.rdwr || flags.wronly) {
        return Err(F.EISDIR);
      }
      if !nodes[i].dir && flags.directory {
        return Err(F.ENOTDIR);
      }
      var f := new OpenedFile(this, i, n, flags);
      if flags.trunc {
        var errno := f.Truncate(0);
        if errno.Some? {
          return Err(errno.value);
        }
      }
      r := Ok(f);
    }

    method Mkdir(path: string) returns (errno: Option<Errno>)
      requires Valid()
      modifies `limit, `created, `names, `nodes, `used
      ensures Valid() && (View(), errno) == F.Mkdir(old(View()), path)
      ensures old(S.Inv(View())) ==> S.Inv(View())
    {
      hide S.Inv;
      if S.Inv(View()) {
        S.MkdirInv(View(), path);
      }
      if readOnly {
        return Some(F.EROFS);
      }
      var at := GuestPath.GuestPath(path, limits.pathBytes + F.longestMountPrefix);
      if at == Err(TooLong) {
        var e := Exceeded(F.PathBytes, F.ENAMETOOLONG);
        return Some(e);
      }
      if at.Err? {
        return Some(F.ErrnoOf(at.error));
      }
      if at.value in names {
        return Some(F.EEXIST);
      }
      errno := Parent(at.value);
      if errno.None? {
        errno := Create(at.value, true);
      }
    }

    method Unlink(path: string) returns (errno: Option<Errno>)
      requires Valid()
      modifies `limit, `names
      ensures Valid() && (View(), errno) == F.Unlink(old(View()), path)
      ensures old(S.Inv(View())) ==> S.Inv(View())
    {
      hide S.Inv;
      if S.Inv(View()) {
        S.UnlinkInv(View(), path);
      }
      if readOnly {
        return Some(F.EROFS);
      }
      var at := Locate(path, false);
      if at.Err? {
        return Some(at.error);
      }
      var n := at.value.0;
      if n !in names {
        return Some(F.ENOENT);
      }
      if nodes[names[n]].dir {
        return Some(F.EISDIR);
      }
      names := names - {n};
      errno := None;
    }

    method Rename(source: string, target: string) returns (errno: Option<Errno>)
      requires Valid()
      modifies `limit, `created, `names
      ensures Valid() && (View(), errno) == F.Rename(old(View()), source, target)
      ensures old(S.Inv(View())) ==> S.Inv(View())
    {
      hide S.Inv;
      if S.Inv(View()) {
        S.RenameInv(View(), source, target);
      }
      hide F.Move;
      if readOnly {
        return Some(F.EROFS);
      }
      var at1 := Locate(source, false);
      if at1.Err? {
        return Some(at1.error);
      }
      var at2 := Locate(target, true);
      if at2.Err? {
        return Some(at2.error);
      }
      errno := Move(at1.value.0, at2.value.0);
    }

    method Move(from: Name, to: Name) returns (errno: Option<Errno>)
      requires Valid()
      modifies `limit, `created, `names
      ensures Valid() && (View(), errno) == F.Move(old(View()), from, to)
    {
      hide F.Charge, F.ParentError;
      if from !in names {
        return Some(F.ENOENT);
      }
      var node := names[from];
      if nodes[node].dir {
        return Some(F.ENOSYS);
      }
      errno := Parent(to);
      if errno.Some? {
        return;
      }
      if to in names && nodes[names[to]].dir {
        return Some(F.EISDIR);
      }
      if from == to {
        return None;
      }
      if to !in names {
        errno := ChargeEntry(to);
        if errno.Some? {
          return;
        }
      }
      names := names - {from};
      names := names[to := node];
    }

    /** The live files, by value. */
    method Snapshot() returns (out: map<Name, seq<byte>>)
      requires Valid()
      ensures out == F.Snapshot(View())
    {
      out := map[];
      var left := names.Keys;
      while left != {}
        invariant left <= names.Keys
        invariant out.Keys == set n | n in names && n !in left && !nodes[names[n]].dir
        invariant forall n <- out :: out[n] == nodes[names[n]].data
        decreases |left|
      {
        var n :| n in left;
        left := left - {n};
        if !nodes[names[n]].dir {
          out := out[n := nodes[names[n]].data];
        }
      }
    }
  }

  /** An open file: its own offset and mode over a shared node. */
  class OpenedFile {
    const fs: FileSystem
    const node: nat
    const name: Name
    const readable: bool
    const writable: bool
    var offset: int
    var appendMode: bool
    var closed: bool

    constructor (fs: FileSystem, node: nat, name: Name, flags: F.Flags)
      ensures this.fs == fs && View() == F.Opening(flags, node, name)
    {
      this.fs, this.node, this.name := fs, node, name;
      readable, writable := !flags.wronly, flags.rdwr || flags.wronly;
      offset, appendMode, closed := 0, flags.append, false;
    }

    function View(): F.Handle
      reads this
    {
      F.Handle(node, name, offset, readable, writable, appendMode, closed)
    }

    ghost predicate Valid()
      reads this, fs
    {
      fs.Valid() && node < |fs.nodes|
    }

    method Truncate(size: int) returns (errno: Option<Errno>)
      requires Valid()
      modifies fs`nodes, fs`used, fs`limit
      ensures Valid() && View() == old(View())
      ensures old(S.Inv(fs.View())) ==> S.Inv(fs.View())
      ensures (fs.View(), errno) == F.Truncate(old(fs.View()), View(), size)
    {
      hide S.Inv;
      if S.Inv(fs.View()) {
        S.TruncateInv(fs.View(), View(), size);
      }
      if closed || !writable {
        return Some(F.EBADF);
      }
      var data := fs.nodes[node].data;
      if fs.nodes[node].dir {
        return Some(F.EISDIR);
      }
      if size < 0 {
        return Some(F.EINVAL);
      }
      var delta := size - |data|;
      if delta > fs.limits.outputBytes - fs.used {
        var e := fs.Exceeded(F.OutputBytes, F.ERANGE);
        return Some(e);
      }
      if delta > 0 {
        data := data + seq(delta, _ => 0);
      } else {
        data := data[..size];
      }
      fs.nodes := fs.nodes[node := fs.nodes[node].(data := data)];
      fs.used := fs.used + delta;
      errno := None;
    }

    method Pwrite(buf: seq<byte>, at: int) returns (r: Result<nat, Errno>)
      requires Valid()
      modifies fs`nodes, fs`used, fs`limit
      ensures Valid() && View() == old(View())
      ensures old(S.Inv(fs.View())) ==> S.Inv(fs.View())
      ensures (fs.View(), r) == F.Pwrite(old(fs.View()), View(), buf, at)
    {
      hide S.Inv;
      if S.Inv(fs.View()) {
        S.PwriteInv(fs.View(), View(), buf, at);
      }
      hide F.Truncate;
      if closed || !writable {
        return Err(F.EBADF);
      }
      var budget := fs.limits.outputBytes;
      if at < 0 || at > budget || |buf| > budget - at {
        if at < 0 {
          return Err(F.EINVAL);
        }
        var e := fs.Exceeded(F.OutputBytes, F.ERANGE);
        return Err(e);
      }
      var end := at + |buf|;
      if end > |fs.nodes[node].data| {
        var errno := Truncate(end);
        if errno.Some? {
          return Err(errno.value);
        }
        F.TruncateGrows(old(fs.View()), View(), end);
      }
      var data := fs.nodes[node].data;
      fs.nodes := fs.nodes[node := fs.nodes[node].(data := F.Overwrite(data, at, buf))];
      r := Ok(|buf|);
    }

    method Write(buf: seq<byte>) returns (r: Result<nat, Errno>)
      requires Valid()
      modifies `offset, fs`nodes, fs`used, fs`limit
      ensures Valid()
      ensures old(S.Inv(fs.View())) ==> S.Inv(fs.View())
      ensures (fs.View(), View(), r) == F.Write(old(fs.View()), old(View()), buf)
    {
      hide S.Inv;
      hide F.Pwrite;
      if appendMode {
        offset := |fs.nodes[node].data|;
      }
      PwriteIgnoresOffset(fs.View(), View(), old(View()), buf, offset);
      r := Pwrite(buf, offset);
      offset := offset + (if r.Ok? then r.value else 0);
    }

    method Pread(count: nat, at: int) returns (r: Result<seq<byte>, Errno>)
      requires Valid()
      ensures r == F.Pread(fs.View(), View(), count, at)
    {
      if closed || !readable {
        return Err(F.EBADF);
      }
      if fs.nodes[node].dir {
        return Err(F.EISDIR);
      }
      if at < 0 {
        return Err(F.EINVAL);
      }
      var data := fs.nodes[node].data;
      if at >= |data| {
        return Ok([]);
      }
      r := Ok(data[at..Min(at + count, |data|)]);
    }

    method Read(count: nat) returns (r: Result<seq<byte>, Errno>)
      requires Valid()
      modifies `offset
      ensures Valid() && (View(), r) == F.Read(fs.View(), old(View()), count)
    {
      r := Pread(count, offset);
      offset := offset + (if r.Ok? then |r.value| else 0);
    }

    method Seek(distance: int, whence: F.Whence) returns (r: Result<int, Errno>)
      requires Valid()
      modifies `offset
      ensures Valid() && (View(), r) == F.Seek(fs.View(), old(View()), distance, whence)
    {
      if closed {
        return Err(F.EBADF);
      }
      if fs.nodes[node].dir {
        return if !whence.SeekStart? || distance != 0 then Err(F.EINVAL) else Ok(0);
      }
      var target := distance;
      match whence {
        case SeekStart =>
        case SeekCurrent => target := F.Wrap(target + offset);
        case SeekEnd => target := F.Wrap(target + |fs.nodes[node].data|);
        case SeekOther => return Err(F.EINVAL);
      }
      if target < 0 || target > fs.limits.outputBytes {
        return Err(F.EINVAL);
      }
      offset := target;
      r := Ok(target);
    }

    method Close()
      modifies `closed
      ensures View() == old(View()).(closed := true)
    {
      closed := true;
    }
  }

  lemma PwriteIgnoresOffset(f: F.Fs, h: F.Handle, g: F.Handle, buf: seq<byte>, at: int)
    requires F.Typed(f) && F.On(f, h) && g == h.(offset := g.offset)
    ensures F.Pwrite(f, h, buf, at) == F.Pwrite(f, g, buf, at)
  {
  }
}
