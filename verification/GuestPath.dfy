/**
 * Guest paths of the in-memory filesystem: names are kept as their canonical
 * components, the root being the empty list. Characters stand for bytes.
 */
module GuestPath {
  import opened Prelude

  type Name = seq<string>

  datatype PathError = TooLong | NotPermitted

  // ------------------------------------------------------------ the strings

  function Split(s: string): (parts: seq<string>)
    ensures |parts| > 0
  {
    if s == "" then [""]
    else
      var rest := Split(s[1..]);
      if s[0] == '/' then [""] + rest else [[s[0]] + rest[0]] + rest[1..]
  }

  function Join(parts: seq<string>): string {
    if parts == [] then ""
    else if |parts| == 1 then parts[0]
    else parts[0] + "/" + Join(parts[1..])
  }

  predicate Plain(part: string) {
    '/' !in part && '\\' !in part && '\0' !in part
  }

  /** A component that names an entry. */
  predicate Component(part: string) {
    Plain(part) && part != "" && part != "." && part != ".."
  }

  predicate Canonical(name: Name) {
    forall j | 0 <= j < |name| :: Component(name[j])
  }

  /** The string form of a name: what the map of nodes is keyed by. */
  function Text(name: Name): string {
    if name == [] then "." else Join(name)
  }

  lemma {:induction false} SplitSlashFree(part: string)
    requires '/' !in part
    ensures Split(part) == [part]
  {
    if part != "" {
      SplitSlashFree(part[1..]);
      assert [part[0]] + part[1..] == part;
    }
  }

  lemma {:induction false} SplitAfter(part: string, rest: string)
    requires '/' !in part
    ensures Split(part + "/" + rest) == [part] + Split(rest)
  {
    if part == "" {
      assert part + "/" + rest == "/" + rest;
      assert ("/" + rest)[1..] == rest;
    } else {
      SplitAfter(part[1..], rest);
      var s := part + "/" + rest;
      assert s[1..] == part[1..] + "/" + rest;
      assert [s[0]] + part[1..] == part;
    }
  }

  /** Splitting undoes joining. */
  lemma {:induction false} SplitJoin(parts: seq<string>)
    requires |parts| > 0
    requires forall j | 0 <= j < |parts| :: '/' !in parts[j]
    ensures Split(Join(parts)) == parts
  {
    if |parts| == 1 {
      SplitSlashFree(parts[0]);
    } else {
      SplitJoin(parts[1..]);
      SplitAfter(parts[0], Join(parts[1..]));
    }
  }

  /** A slash separates: splitting goes on from both sides. */
  lemma {:induction false} SplitCat(a: string, b: string)
    ensures Split(a + "/" + b) == Split(a) + Split(b)
  {
    if a == "" {
      assert a + "/" + b == "/" + b && ("/" + b)[1..] == b;
    } else {
      SplitCat(a[1..], b);
      var all, x, y := a + "/" + b, Split(a[1..]), Split(b);
      assert all[1..] == a[1..] + "/" + b && all[0] == a[0];
      Regroup([""], x, y);
      FirstGrows(a[0], x, y);
    }
  }

  lemma FirstGrows(c: char, x: seq<string>, y: seq<string>)
    requires x != []
    ensures [[c] + (x + y)[0]] + (x + y)[1..] == ([[c] + x[0]] + x[1..]) + y
  {
    assert (x + y)[1..] == x[1..] + y;
  }

  /** Joining undoes splitting. */
  lemma {:induction false} JoinSplit(s: string)
    ensures Join(Split(s)) == s
  {
    if s != "" {
      JoinSplit(s[1..]);
      var rest := Split(s[1..]);
      if s[0] == '/' {
        assert ([""] + rest)[1..] == rest;
        assert "" + "/" + Join(rest) == s;
      } else if |rest| > 1 {
        assert ([[s[0]] + rest[0]] + rest[1..])[1..] == rest[1..];
        assert [s[0]] + rest[0] + "/" + Join(rest[1..]) == [s[0]] + (rest[0] + "/" + Join(rest[1..]));
      } else {
        assert [[s[0]] + rest[0]] + rest[1..] == [[s[0]] + rest[0]];
      }
    }
  }

  lemma {:induction false} JoinCat(a: seq<string>, b: seq<string>)
    requires a != [] && b != []
    ensures Join(a + b) == Join(a) + "/" + Join(b)
  {
    if |a| == 1 {
      assert (a + b)[1..] == b;
    } else {
      JoinCat(a[1..], b);
      assert (a + b)[1..] == a[1..] + b;
    }
  }

  /** Distinct names have distinct strings, so a map of nodes can use either. */
  lemma TextIsInjective(a: Name, b: Name)
    requires Canonical(a) && Canonical(b)
    requires Text(a) == Text(b)
    ensures a == b
  {
    SplitText(a);
    SplitText(b);
  }

  lemma SplitText(a: Name)
    requires Canonical(a)
    ensures Split(Text(a)) == if a == [] then ["."] else a
  {
    if a == [] {
      SplitSlashFree(".");
    } else {
      SplitJoin(a);
    }
  }

  // ------------------------------------------------------------ resolution

  /** Walk on from `at`, unless a component ascends above the root. */
  function Walk(at: Name, parts: seq<string>): Option<Name>
    decreases |parts|
  {
    if parts == [] then Some(at)
    else if parts[0] == "" || parts[0] == "." then Walk(at, parts[1..])
    else if parts[0] == ".." then (if at == [] then None else Walk(at[..|at| - 1], parts[1..]))
    else Walk(at + [parts[0]], parts[1..])
  }

  predicate Forbidden(name: string) {
    '\\' in name || '\0' in name
  }

  function Resolve(name: string, maximum: nat): Result<Name, PathError> {
    if |name| > maximum then Err(TooLong)
    else if Forbidden(name) then Err(NotPermitted)
    else
      match Walk([], Split(name))
      case None => Err(NotPermitted)
      case Some(n) => Ok(n)
  }

  /** `guestPath` */
  method GuestPath(name: string, maximum: nat) returns (r: Result<Name, PathError>)
    ensures r == Resolve(name, maximum)
  {
    if |name| > maximum {
      return Err(TooLong);
    }
    if '\\' in name || '\0' in name {
      return Err(NotPermitted);
    }
    var all := Split(name);
    var parts: seq<string> := [];
    for i := 0 to |all|
      invariant Walk([], all) == Walk(parts, all[i..])
    {
      var part := all[i];
      if part == "" || part == "." {
      } else if part == ".." {
        if |parts| == 0 {
          return Err(NotPermitted);
        }
        parts := parts[..|parts| - 1];
      } else {
        parts := parts + [part];
      }
    }
    r := Ok(parts);
  }

  // ------------------------------------------------------------- properties

  lemma {:induction false} SplitKeeps(s: string)
    requires !Forbidden(s)
    ensures forall j | 0 <= j < |Split(s)| :: Plain(Split(s)[j])
  {
    if s != "" {
      SplitKeeps(s[1..]);
    }
  }

  lemma {:induction false} WalkCanonical(at: Name, parts: seq<string>)
    requires Canonical(at)
    requires forall j | 0 <= j < |parts| :: Plain(parts[j])
    ensures var r := Walk(at, parts); r.Some? ==> Canonical(r.value)
    decreases |parts|
  {
    if parts != [] {
      var rest := parts[1..];
      if parts[0] == "" || parts[0] == "." {
        WalkCanonical(at, rest);
      } else if parts[0] == ".." {
        if at != [] {
          WalkCanonical(at[..|at| - 1], rest);
        }
      } else {
        WalkCanonical(at + [parts[0]], rest);
      }
    }
  }

  /** A resolved path is canonical: nothing in it ascends, hides or is empty. */
  lemma ResolvedIsCanonical(name: string, maximum: nat)
    ensures var r := Resolve(name, maximum); r.Ok? ==> Canonical(r.value)
  {
    if !Forbidden(name) {
      SplitKeeps(name);
      WalkCanonical([], Split(name));
    }
  }

  lemma {:induction false} WalkComponents(at: Name, parts: Name)
    requires Canonical(parts)
    ensures Walk(at, parts) == Some(at + parts)
    decreases |parts|
  {
    if parts == [] {
      assert at + parts == at;
    } else {
      assert Component(parts[0]);
      WalkComponents(at + [parts[0]], parts[1..]);
      assert at + [parts[0]] + parts[1..] == at + parts;
    }
  }

  lemma JoinAllowed(parts: Name)
    requires Canonical(parts)
    ensures !Forbidden(Join(parts))
  {
    if |parts| > 1 {
      JoinAllowed(parts[1..]);
    }
  }

  /** Canonical names resolve to themselves, so resolving twice is resolving once. */
  lemma ResolveIsIdempotent(name: Name, maximum: nat)
    requires Canonical(name)
    requires |Text(name)| <= maximum
    ensures Resolve(Text(name), maximum) == Ok(name)
  {
    SplitText(name);
    JoinAllowed(name);
    if name == [] {
      assert ["."][1..] == [];
      assert Walk([], ["."]) == Walk([], []);
    } else {
      WalkComponents([], name);
      assert [] + name == name;
    }
  }

  // -------------------------------------------------------------- ascending

  /** How far below the mount's root the components lead. */
  function Depth(parts: seq<string>): int {
    if parts == [] then 0
    else
      var last := parts[|parts| - 1];
      Depth(parts[..|parts| - 1]) + (if last == ".." then -1 else if last == "" || last == "." then 0 else 1)
  }

  function DepthFrom(at: nat, parts: seq<string>): int {
    at + Depth(parts)
  }

  /** Some prefix of the path leaves the mount. */
  ghost predicate Ascends(parts: seq<string>, from: nat) {
    exists k :: 0 <= k <= |parts| && DepthFrom(from, parts[..k]) < 0
  }

  lemma {:induction false} DepthCons(first: string, rest: seq<string>)
    ensures Depth([first] + rest) == Depth([first]) + Depth(rest)
  {
    var all := [first] + rest;
    if rest == [] {
      assert all == [first];
    } else {
      var n := |rest| - 1;
      DepthCons(first, rest[..n]);
      assert all[..|all| - 1] == [first] + rest[..n];
    }
  }

  lemma DepthPrefix(parts: seq<string>, k: nat)
    requires parts != [] && 1 <= k <= |parts|
    ensures Depth(parts[..k]) == Depth([parts[0]]) + Depth(parts[1..][..k - 1])
  {
    DepthCons(parts[0], parts[1..][..k - 1]);
    assert parts[..k] == [parts[0]] + parts[1..][..k - 1];
  }

  lemma AscendsTail(parts: seq<string>, from: nat)
    requires parts != [] && from + Depth([parts[0]]) >= 0
    ensures Ascends(parts, from) <==> Ascends(parts[1..], from + Depth([parts[0]]))
  {
    var from' := from + Depth([parts[0]]);
    if Ascends(parts, from) {
      var k :| 0 <= k <= |parts| && DepthFrom(from, parts[..k]) < 0;
      assert k > 0 by {
        assert Depth(parts[..0]) == 0;
      }
      DepthPrefix(parts, k);
      assert DepthFrom(from', parts[1..][..k - 1]) < 0;
    }
    if Ascends(parts[1..], from') {
      var k :| 0 <= k <= |parts[1..]| && DepthFrom(from', parts[1..][..k]) < 0;
      DepthPrefix(parts, k + 1);
      assert DepthFrom(from, parts[..k + 1]) < 0;
    }
  }

  lemma {:induction false} WalkAscends(at: Name, parts: seq<string>)
    ensures Walk(at, parts).None? <==> Ascends(parts, |at|)
    decreases |parts|
  {
    if parts == [] {
      assert forall k :: 0 <= k <= |parts| ==> parts[..k] == [];
    } else {
      var first, rest := parts[0], parts[1..];
      assert Depth([first]) == if first == ".." then -1 else if first == "" || first == "." then 0 else 1 by {
        assert [first][..0] == [];
      }
      if first == ".." && at == [] {
        assert parts[..1] == [first];
        assert DepthFrom(0, parts[..1]) < 0;
      } else {
        AscendsTail(parts, |at|);
        if first == "" || first == "." {
          WalkAscends(at, rest);
        } else if first == ".." {
          WalkAscends(at[..|at| - 1], rest);
        } else {
          WalkAscends(at + [first], rest);
        }
      }
    }
  }

  /** Exactly the paths that leave the mount, even for a moment, are refused. */
  lemma ResolveConfines(name: string, maximum: nat)
    ensures Resolve(name, maximum) == Err(TooLong) <==> |name| > maximum
    ensures |name| <= maximum ==>
              (Resolve(name, maximum) == Err(NotPermitted) <==> Forbidden(name) || Ascends(Split(name), 0))
  {
    WalkAscends([], Split(name));
  }
}
