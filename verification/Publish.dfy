/**
 * Publishing staged generator output: a check pass that changes nothing, and
 * then a move pass over the same sorted entries.
 */
module Publish {
  import opened Prelude

  /** The names from the root of a tree down to an entry. */
  type Parts = seq<string>

  datatype Node =
    | Directory(writable: bool)
    | File(content: string, writable: bool)
    | Link
    | Other(writable: bool)

  /** The entries below a root, which is itself a directory. */
  type Tree = map<Parts, Node>

  predicate IsDirectory(t: Tree, p: Parts) {
    p == [] || (p in t && t[p].Directory?)
  }

  function Parent(p: Parts): Parts
    requires p != []
  {
    p[..|p| - 1]
  }

  /** Every entry is in a directory. */
  predicate Rooted(t: Tree) {
    forall p | p in t :: p != [] && IsDirectory(t, Parent(p))
  }

  // ---------------------------------------------------------------- ordering

  predicate Less(a: string, b: string) {
    b != "" && (a == "" || a[0] < b[0] || (a[0] == b[0] && Less(a[1..], b[1..])))
  }

  /** compareParts */
  function Compare(a: Parts, b: Parts): int {
    if a == [] || b == [] then |a| - |b|
    else if a[0] != b[0] then if Less(a[0], b[0]) then -1 else 1
    else Compare(a[1..], b[1..])
  }

  lemma {:induction false} BelowIsAfter(p: Parts, rest: Parts)
    requires rest != []
    ensures Compare(p + rest, p) > 0
  {
    if p != [] {
      BelowIsAfter(p[1..], rest);
      assert (p + rest)[1..] == p[1..] + rest;
    }
  }

  lemma {:induction false} LessIsTotal(a: string, b: string)
    ensures a == b || Less(a, b) || Less(b, a)
  {
    if a != "" && b != "" && a[0] == b[0] {
      LessIsTotal(a[1..], b[1..]);
      assert a == [a[0]] + a[1..] && b == [b[0]] + b[1..];
    }
  }

  lemma {:induction false} LessIsTransitive(a: string, b: string, c: string)
    requires Less(a, b) && Less(b, c)
    ensures Less(a, c)
  {
    if a != "" && a[0] == b[0] == c[0] {
      LessIsTransitive(a[1..], b[1..], c[1..]);
    }
  }

  lemma {:induction false} CompareTurns(a: Parts, b: Parts)
    requires Compare(a, b) > 0
    ensures Compare(b, a) <= 0
  {
    if a != [] && b != [] {
      if a[0] == b[0] {
        CompareTurns(a[1..], b[1..]);
      } else {
        LessIsTotal(a[0], b[0]);
      }
    }
  }

  lemma {:induction false} CompareChains(a: Parts, b: Parts, c: Parts)
    requires Compare(a, b) <= 0 && Compare(b, c) <= 0
    ensures Compare(a, c) <= 0
  {
    if a != [] && b != [] && c != [] {
      if a[0] == b[0] && b[0] == c[0] {
        CompareChains(a[1..], b[1..], c[1..]);
      } else if a[0] != b[0] && b[0] != c[0] {
        LessIsTransitive(a[0], b[0], c[0]);
        LessIsIrreflexive(a[0]);
      }
    }
  }

  lemma {:induction false} LessIsIrreflexive(a: string)
    ensures !Less(a, a)
  {
    if a != "" {
      LessIsIrreflexive(a[1..]);
    }
  }

  predicate Sorted(s: seq<Parts>) {
    forall i, j | 0 <= i < j < |s| :: Compare(s[i], s[j]) <= 0
  }

  function Insert(p: Parts, s: seq<Parts>): seq<Parts> {
    if s == [] || Compare(p, s[0]) <= 0 then [p] + s else [s[0]] + Insert(p, s[1..])
  }

  function Sort(s: seq<Parts>): seq<Parts> {
    if s == [] then [] else Insert(s[0], Sort(s[1..]))
  }

  lemma SortedCons(p: Parts, s: seq<Parts>)
    requires Sorted(s) && forall q | q in s :: Compare(p, q) <= 0
    ensures Sorted([p] + s)
  {
    var t := [p] + s;
    forall i, j | 0 <= i < j < |t| ensures Compare(t[i], t[j]) <= 0 {
      assert t[j] == s[j - 1];
    }
  }

  lemma {:induction false} InsertKeeps(p: Parts, s: seq<Parts>)
    ensures multiset(Insert(p, s)) == multiset(s) + multiset{p}
  {
    hide Compare;
    if s != [] && Compare(p, s[0]) > 0 {
      InsertKeeps(p, s[1..]);
      assert s == [s[0]] + s[1..];
    }
  }

  lemma Members(p: Parts, s: seq<Parts>, q: Parts)
    requires q in Insert(p, s)
    ensures q == p || q in s
  {
    InsertKeeps(p, s);
    assert q in multiset(Insert(p, s));
  }

  lemma {:induction false} InsertSorts(p: Parts, s: seq<Parts>)
    requires Sorted(s)
    ensures Sorted(Insert(p, s))
  {
    hide Compare;
    if s == [] {
    } else if Compare(p, s[0]) <= 0 {
      forall q | q in s ensures Compare(p, q) <= 0 {
        if q != s[0] {
          CompareChains(p, s[0], q);
        }
      }
      SortedCons(p, s);
    } else {
      InsertSorts(p, s[1..]);
      CompareTurns(p, s[0]);
      forall q | q in Insert(p, s[1..]) ensures Compare(s[0], q) <= 0 {
        Members(p, s[1..], q);
      }
      SortedCons(s[0], Insert(p, s[1..]));
    }
  }

  lemma {:induction false} SortSorts(s: seq<Parts>)
    ensures Sorted(Sort(s)) && multiset(Sort(s)) == multiset(s)
  {
    if s != [] {
      SortSorts(s[1..]);
      InsertSorts(s[0], Sort(s[1..]));
      InsertKeeps(s[0], Sort(s[1..]));
      assert s == [s[0]] + s[1..];
    }
  }

  // ----------------------------------------------------------------- the walk

  /** Each of them once. */
  ghost predicate Lists(list: seq<Parts>, all: set<Parts>) {
    && (forall i, j | 0 <= i < j < |list| :: list[i] != list[j])
    && (forall p :: p in list <==> p in all)
  }

  lemma ListsMore(a: seq<Parts>, x: set<Parts>, b: seq<Parts>, y: set<Parts>)
    requires Lists(a, x) && Lists(b, y) && x !! y
    ensures Lists(a + b, x + y)
  {
    var c := a + b;
    forall i, j | 0 <= i < j < |c| ensures c[i] != c[j] {
      if i < |a| <= j {
        assert c[i] in a && c[j] in b;
      }
    }
  }

  function ChildrenOf(tree: Tree, d: Parts): set<Parts> {
    set p | p in tree && p != [] && Parent(p) == d
  }

  method Listing(all: set<Parts>) returns (list: seq<Parts>)
    ensures Lists(list, all)
  {
    list := [];
    var rest := all;
    while rest != {}
      invariant rest <= all && Lists(list, all - rest)
    {
      var p :| p in rest;
      list, rest := list + [p], rest - {p};
    }
  }

  /** Some directory on the stack leads to p. */
  ghost predicate Ahead(pending: seq<Parts>, p: Parts) {
    exists k | 0 <= k < |p| :: p[..k] in pending
  }

  /** The state of the walk. */
  ghost predicate Walking(tree: Tree, visited: set<Parts>, pending: seq<Parts>) {
    && visited <= tree.Keys
    && (forall i, j | 0 <= i < j < |pending| :: pending[i] != pending[j])
    && (forall d | d in pending :: IsDirectory(tree, d) && (d == [] || d in visited) && ChildrenOf(tree, d) !! visited)
    && (forall p | p in visited :: p != [] && (Parent(p) == [] || Parent(p) in visited))
    && (forall p | p in tree :: p in visited || Ahead(pending, p))
  }

  lemma {:induction false} Ancestors(tree: Tree, p: Parts, k: nat)
    requires Rooted(tree) && p in tree && k < |p|
    ensures IsDirectory(tree, p[..k])
    decreases |p|
  {
    var q := Parent(p);
    if k < |q| {
      Ancestors(tree, q, k);
      assert q[..k] == p[..k];
    }
  }

  lemma AheadStays(tree: Tree, visited: set<Parts>, pending: seq<Parts>, found: set<Parts>, inner: seq<Parts>, p: Parts)
    requires Rooted(tree) && pending != [] && p in tree && Ahead(pending, p)
    requires found == ChildrenOf(tree, pending[|pending| - 1])
    requires Lists(inner, set p | p in found && IsDirectory(tree, p))
    ensures p in visited + found || Ahead(pending[..|pending| - 1] + inner, p)
  {
    hide Rooted, Lists, ChildrenOf;
    var n := |pending| - 1;
    var d := pending[n];
    var k :| 0 <= k < |p| && p[..k] in pending;
    AheadNext(tree, p, k, d, found, inner);
    if p[..k] == d {
      if k + 1 < |p| {
        assert p[..k + 1] in pending[..n] + inner;
      }
    } else {
      assert p[..k] in pending[..n] + inner;
    }
  }

  /** What is on the stack stays unvisited below. */
  lemma StackStays(tree: Tree, visited: set<Parts>, pending: seq<Parts>, found: set<Parts>, q: Parts)
    requires Walking(tree, visited, pending) && pending != []
    requires found == ChildrenOf(tree, pending[|pending| - 1])
    requires q in pending[..|pending| - 1] || (q in found && IsDirectory(tree, q))
    ensures IsDirectory(tree, q) && (q == [] || q in visited + found)
    ensures ChildrenOf(tree, q) !! visited + found && q != pending[|pending| - 1]
  {
    hide Ahead;
    var d := pending[|pending| - 1];
    if q in found {
      assert q !in visited && q != [] && Parent(q) == d;
      assert |q| == |d| + 1;
    }
  }

  lemma WalksOne(tree: Tree, visited: set<Parts>, pending: seq<Parts>, found: set<Parts>, inner: seq<Parts>)
    requires Rooted(tree) && pending != []
    requires Walking(tree, visited, pending) && found == ChildrenOf(tree, pending[|pending| - 1])
    requires Lists(inner, set p | p in found && IsDirectory(tree, p))
    ensures Walking(tree, visited + found, pending[..|pending| - 1] + inner)
  {
    hide Ahead, Rooted;
    var n := |pending| - 1;
    var d, rest := pending[n], pending[..n];
    var visited', pending' := visited + found, rest + inner;
    forall p | p in tree ensures p in visited' || Ahead(pending', p) {
      if p !in visited {
        AheadStays(tree, visited, pending, found, inner, p);
      }
    }
    forall q | q in pending'
      ensures IsDirectory(tree, q) && (q == [] || q in visited') && ChildrenOf(tree, q) !! visited' {
      StackStays(tree, visited, pending, found, q);
    }
    Distinct(rest, inner);
    assert forall p | p in visited' :: p != [] && (Parent(p) == [] || Parent(p) in visited');
    hide ChildrenOf, Lists, IsDirectory;
  }

  lemma Distinct(a: seq<Parts>, b: seq<Parts>)
    requires forall i, j | 0 <= i < j < |a| :: a[i] != a[j]
    requires forall i, j | 0 <= i < j < |b| :: b[i] != b[j]
    requires forall q | q in b :: q !in a
    ensures forall i, j | 0 <= i < j < |a + b| :: (a + b)[i] != (a + b)[j]
  {
    var c := a + b;
    forall i, j | 0 <= i < j < |c| ensures c[i] != c[j] {
      if i < |a| <= j {
        assert c[i] in a && c[j] in b;
      }
    }
  }

  lemma AheadNext(tree: Tree, p: Parts, k: nat, d: Parts, found: set<Parts>, inner: seq<Parts>)
    requires Rooted(tree) && p in tree && k < |p|
    requires found == ChildrenOf(tree, d) && Lists(inner, set p | p in found && IsDirectory(tree, p))
    ensures p[..k] == d ==> if k + 1 == |p| then p in found else p[..k + 1] in inner
  {
    if p[..k] == d {
      if k + 1 < |p| {
        Ancestors(tree, p, k + 1);
      }
      assert Parent(p[..k + 1]) == d;
      assert p[..|p|] == p;
    }
  }

  lemma WalkStarts(tree: Tree)
    requires Rooted(tree)
    ensures Walking(tree, {}, [[]]) && Lists([], {})
  {
    forall p | p in tree ensures Ahead([[]], p) {
      assert p[..0] == [] && p[..0] in [[]];
    }
  }

  lemma Fresh(tree: Tree, visited: set<Parts>, pending: seq<Parts>, found: set<Parts>, inner: seq<Parts>)
    requires pending != [] && Lists(inner, set p | p in found && IsDirectory(tree, p)) && Walking(tree, visited, pending) && found == ChildrenOf(tree, pending[|pending| - 1])
    ensures found <= tree.Keys - visited
    ensures found != {} ==> |tree.Keys - (visited + found)| < |tree.Keys - visited|
    ensures found == {} ==> inner == [] && visited + found == visited
  {
    if inner != [] {
      assert inner[0] in inner;
    }
    assert tree.Keys - (visited + found) == (tree.Keys - visited) - found;
  }

  lemma WalkEnds(tree: Tree, visited: set<Parts>)
    requires Walking(tree, visited, [])
    ensures visited == tree.Keys
  {
    forall p | p in tree ensures p in visited {
      assert !Ahead([], p);
    }
  }

  lemma Rearranged(a: seq<Parts>, b: seq<Parts>, all: set<Parts>)
    requires Lists(a, all) && multiset(b) == multiset(a)
    ensures Lists(b, all)
  {
    forall p ensures p in b <==> p in all {
      assert p in b <==> p in multiset(b);
    }
    forall i, j | 0 <= i < j < |b| ensures b[i] != b[j] {
      if b[i] == b[j] {
        Twice(b, i, j);
        Once(a, b[i]);
      }
    }
  }

  lemma Twice(b: seq<Parts>, i: nat, j: nat)
    requires i < j < |b| && b[i] == b[j]
    ensures multiset(b)[b[i]] >= 2
  {
    assert b == b[..i] + [b[i]] + b[i + 1..j] + [b[j]] + b[j + 1..];
  }

  lemma {:induction false} Once(a: seq<Parts>, p: Parts)
    requires forall i, j | 0 <= i < j < |a| :: a[i] != a[j]
    ensures multiset(a)[p] <= 1
  {
    if a != [] {
      Once(a[1..], p);
      assert a == [a[0]] + a[1..];
    }
  }

  /** walk: every entry once, and sorted. */
  method Walk(tree: Tree) returns (entries: seq<Parts>)
    requires Rooted(tree)
    ensures Lists(entries, tree.Keys) && Sorted(entries)
  {
    hide Walking, Rooted, Sorted, Lists;
    var visited: set<Parts> := {};
    var pending: seq<Parts> := [[]];
    entries := [];
    WalkStarts(tree);
    while pending != []
      invariant Walking(tree, visited, pending) && Lists(entries, visited)
      decreases |tree.Keys - visited|, |pending|
    {
      var n := |pending| - 1;
      var directory := pending[n];
      var found := ChildrenOf(tree, directory);
      var names := Listing(found);
      var inner := Listing(set p | p in found && IsDirectory(tree, p));
      WalksOne(tree, visited, pending, found, inner);
      Fresh(tree, visited, pending, found, inner);
      ListsMore(entries, visited, names, found);
      visited, entries, pending := visited + found, entries + names, pending[..n] + inner;
    }
    WalkEnds(tree, visited);
    SortSorts(entries);
    Rearranged(entries, Sort(entries), tree.Keys);
    entries := Sort(entries);
  }

  // --------------------------------------------------------------- publishing

  datatype Problem =
    | OutputLink(at: Parts) | ProducedLink(at: Parts) | DirectoryConflict(at: Parts) | FileConflict(at: Parts)
    | ReadOnly(at: Parts) | Unsupported(at: Parts)
    | BecameLink(at: Parts) | CannotCreate(at: Parts) | CannotPublish(at: Parts)

  /** The destination is a link, or is below one. */
  predicate LinkIn(output: Tree, p: Parts) {
    exists k | 0 < k <= |p| :: p[..k] in output && output[p[..k]].Link?
  }

  /** What keeps a staged entry from being published. */
  function Refusal(stage: Tree, output: Tree, p: Parts): Option<Problem>
    requires p in stage
  {
    if LinkIn(output, p) then Some(OutputLink(p))
    else if stage[p].Link? then Some(ProducedLink(p))
    else if stage[p].Directory? then
      if p in output && !(output[p].Directory? && output[p].writable) then Some(DirectoryConflict(p)) else None
    else if stage[p].File? then
      if p in output && output[p].Directory? then Some(FileConflict(p))
      else if p in output && !output[p].Link? && !output[p].writable then Some(ReadOnly(p))
      else None
    else Some(Unsupported(p))
  }

  predicate Publishable(stage: Tree, output: Tree) {
    forall p | p in stage :: Refusal(stage, output, p).None?
  }

  /** No link is at the destination or above it, and what is there can give way. */
  ghost predicate Clear(stage: Tree, output: Tree, p: Parts)
    requires p in stage
  {
    && (forall q | q in output && q <= p && q != [] :: !output[q].Link?)
    && match stage[p]
       case Directory(_) => p in output ==> output[p].Directory? && output[p].writable
       case File(_, _) => p in output ==> (output[p].File? || output[p].Other?) && output[p].writable
       case _ => false
  }

  ghost predicate AllClear(stage: Tree, output: Tree) {
    forall p | p in stage :: Clear(stage, output, p)
  }

  /** What the trees have at the path that a refusal names. */
  ghost predicate Explained(stage: Tree, output: Tree, problem: Problem) {
    && problem.at in stage
    && match problem
       case OutputLink(p) => exists q | q in output :: q <= p && q != [] && output[q].Link?
       case ProducedLink(p) => stage[p].Link?
       case DirectoryConflict(p) => stage[p].Directory? && p in output && (output[p].Directory? ==> !output[p].writable)
       case FileConflict(p) => stage[p].File? && p in output && output[p].Directory?
       case ReadOnly(p) => stage[p].File? && p in output && (output[p].File? || output[p].Other?) && !output[p].writable
       case Unsupported(p) => stage[p].Other?
       case _ => false
  }

  lemma LinkIs(output: Tree, p: Parts)
    requires p != []
    ensures LinkIn(output, p) <==> exists q | q in output :: q <= p && q != [] && output[q].Link?
  {
    forall q | q <= p ensures p[..|q|] == q {
    }
    if LinkIn(output, p) {
      var k :| 0 < k <= |p| && p[..k] in output && output[p[..k]].Link?;
      assert p[..k] <= p && |p[..k]| == k;
    }
  }

  /** The refusal of an entry names what is in its way. */
  lemma RefusalMeans(stage: Tree, output: Tree, p: Parts)
    requires p in stage && p != []
    ensures Refusal(stage, output, p).None? <==> Clear(stage, output, p)
    ensures Refusal(stage, output, p).Some? ==>
              Refusal(stage, output, p).value.at == p && Explained(stage, output, Refusal(stage, output, p).value)
  {
    LinkIs(output, p);
    hide LinkIn;
    if !LinkIn(output, p) && p in output {
      assert p <= p && !output[p].Link?;
    }
  }

  lemma ClearIs(stage: Tree, output: Tree)
    requires Rooted(stage)
    ensures Publishable(stage, output) <==> AllClear(stage, output)
  {
    hide Refusal, Clear, IsDirectory;
    forall p | p in stage ensures Refusal(stage, output, p).None? <==> Clear(stage, output, p) {
      RefusalMeans(stage, output, p);
    }
  }

  /** The output with some staged entries laid over it: files replace, directories merge. */
  function Overlaid(output: Tree, stage: Tree, done: seq<Parts>): Tree {
    output + map p | p in stage && p in done && !(stage[p].Directory? && IsDirectory(output, p)) ::
      if stage[p].Directory? then Directory(true) else stage[p]
  }

  /** What is left in the stage: all but the files that moved. */
  function Left(stage: Tree, done: seq<Parts>): Tree {
    map p | p in stage && !(p in done && stage[p].File?) :: stage[p]
  }

  /** Parents come before children in the sorted list. */
  lemma ParentIsDone(stage: Tree, entries: seq<Parts>, i: nat)
    requires Rooted(stage) && Lists(entries, stage.Keys) && Sorted(entries) && i < |entries|
    ensures entries[i] != [] && (Parent(entries[i]) == [] || Parent(entries[i]) in entries[..i])
  {
    var p := entries[i];
    assert p in stage;
    var q := Parent(p);
    if q != [] {
      assert q in stage;
      var j :| 0 <= j < |entries| && entries[j] == q;
      BelowIsAfter(q, [p[|p| - 1]]);
      assert q + [p[|p| - 1]] == p;
      assert entries[..i][j] == q;
    }
  }

  lemma OverlayFinds(output: Tree, stage: Tree, done: seq<Parts>, p: Parts)
    requires Publishable(stage, output) && p in stage && p !in done
    ensures var now := Overlaid(output, stage, done);
            !LinkIn(now, p) && (p in now <==> p in output) && (p in now ==> now[p] == output[p])
  {
    var now := Overlaid(output, stage, done);
    forall k | 0 < k <= |p| ensures !(p[..k] in now && now[p[..k]].Link?) {
      assert Refusal(stage, output, p).None?;
      if p[..k] in stage {
        assert Refusal(stage, output, p[..k]).None?;
      }
    }
  }

  lemma DoneDirectory(output: Tree, stage: Tree, done: seq<Parts>, q: Parts)
    requires IsDirectory(stage, q) && (q == [] || q in done)
    ensures IsDirectory(Overlaid(output, stage, done), q)
  {
  }

  ghost predicate Adds(next: seq<Parts>, done: seq<Parts>, p: Parts) {
    forall q :: q in next <==> q in done || q == p
  }

  lemma OverlaysFile(output: Tree, stage: Tree, done: seq<Parts>, next: seq<Parts>, p: Parts)
    requires Adds(next, done, p) && p in stage && stage[p].File?
    ensures Overlaid(output, stage, next) == Overlaid(output, stage, done)[p := stage[p]]
  {
  }

  lemma OverlaysDirectory(output: Tree, stage: Tree, done: seq<Parts>, next: seq<Parts>, p: Parts)
    requires Adds(next, done, p) && p in stage && stage[p].Directory?
    ensures var now := Overlaid(output, stage, done);
            Overlaid(output, stage, next) == if IsDirectory(output, p) then now else now[p := Directory(true)]
  {
  }

  lemma LeavesOne(stage: Tree, done: seq<Parts>, next: seq<Parts>, p: Parts)
    requires Adds(next, done, p) && p in stage
    ensures Left(stage, next) == if stage[p].File? then Left(stage, done) - {p} else Left(stage, done)
  {
  }

  lemma OverlaysOne(output: Tree, stage: Tree, entries: seq<Parts>, i: nat)
    requires Lists(entries, stage.Keys) && i < |entries|
    ensures var p := entries[i];
            var now, next := Overlaid(output, stage, entries[..i]), Overlaid(output, stage, entries[..i + 1]);
            && p in stage
            && (stage[p].Directory? ==> next == if IsDirectory(output, p) then now else now[p := Directory(true)])
            && (stage[p].File? ==> next == now[p := stage[p]])
            && Left(stage, entries[..i + 1])
               == if stage[p].File? then Left(stage, entries[..i]) - {p} else Left(stage, entries[..i])
  {
    hide Overlaid, Left, IsDirectory;
    var p, done, next := entries[i], entries[..i], entries[..i + 1];
    assert p in stage && next == done + [p];
    assert Adds(next, done, p);
    LeavesOne(stage, done, next, p);
    if stage[p].File? {
      OverlaysFile(output, stage, done, next, p);
    } else if stage[p].Directory? {
      OverlaysDirectory(output, stage, done, next, p);
    }
  }

  lemma NotYet(entries: seq<Parts>, i: nat)
    requires i < |entries| && forall i, j | 0 <= i < j < |entries| :: entries[i] != entries[j]
    ensures entries[i] !in entries[..i]
  {
  }

  /** Everything the move of one entry relies on. */
  lemma MoveIsReady(output: Tree, stage: Tree, entries: seq<Parts>, i: nat)
    requires Rooted(stage) && Publishable(stage, output)
    requires Lists(entries, stage.Keys) && Sorted(entries) && i < |entries|
    ensures var p, now := entries[i], Overlaid(output, stage, entries[..i]);
            && p in stage && p != [] && (stage[p].Directory? || stage[p].File?)
            && p in Left(stage, entries[..i]) && Left(stage, entries[..i])[p] == stage[p]
            && !LinkIn(now, p) && IsDirectory(now, Parent(p))
            && (p in now ==> now[p].Directory? == stage[p].Directory?)
            && (IsDirectory(now, p) <==> IsDirectory(output, p))
  {
    hide Sorted, Overlaid, LinkIn, Rooted;
    var p := entries[i];
    assert p in stage && Refusal(stage, output, p).None?;
    NotYet(entries, i);
    OverlayFinds(output, stage, entries[..i], p);
    ParentIsDone(stage, entries, i);
    ParentIsDirectory(stage, p);
    DoneDirectory(output, stage, entries[..i], Parent(p));
  }

  lemma ParentIsDirectory(stage: Tree, p: Parts)
    requires Rooted(stage) && p in stage
    ensures p != [] && IsDirectory(stage, Parent(p))
  {
  }

  /** The directories that are still to be removed at the end. */
  class Cleanup {
    var paths: seq<string>

    method Keep(path: string)
      modifies this
      ensures path !in paths && forall q | q != path :: q in paths <==> q in old(paths)
    {
      var kept: seq<string> := [];
      for i := 0 to |paths|
        invariant paths == old(paths)
        invariant path !in kept && forall q | q != path :: q in kept <==> q in paths[..i]
      {
        if paths[i] != path {
          kept := kept + [paths[i]];
        }
      }
      paths := kept;
    }

    /** Everything that was not kept goes. */
    method Run() returns (removed: set<string>)
      modifies this
      ensures paths == [] && forall q :: q in removed <==> q in old(paths)
    {
      removed := {};
      while paths != []
        invariant forall q :: q in old(paths) <==> q in paths || q in removed
      {
        var n := |paths| - 1;
        assert paths == paths[..n] + [paths[n]];
        removed, paths := removed + {paths[n]}, paths[..n];
      }
    }
  }

  class Publisher {
    const name: string
    const cleanup: Cleanup
    /** No operation fails but for a reason that the trees show. */
    const reliable: bool
    var stage: Tree
    var output: Tree

    constructor (name: string, cleanup: Cleanup, reliable: bool, stage: Tree, output: Tree)
      ensures this.name == name && this.cleanup == cleanup && this.reliable == reliable
      ensures this.stage == stage && this.output == output
    {
      this.name, this.cleanup, this.reliable, this.stage, this.output := name, cleanup, reliable, stage, output;
    }

    method Succeeds(possible: bool) returns (ok: bool)
      ensures ok ==> possible
      ensures reliable && possible ==> ok
    {
      var fault := *;
      ok := possible && (reliable || !fault);
    }

    method MakeDirectory(p: Parts) returns (ok: bool)
      requires p != []
      modifies this`output
      ensures output == if ok then old(output)[p := Directory(true)] else old(output)
      ensures ok ==> p !in old(output)
      ensures reliable && p !in old(output) && IsDirectory(old(output), Parent(p)) ==> ok
    {
      ok := Succeeds(p !in output && IsDirectory(output, Parent(p)));
      if ok {
        output := output[p := Directory(true)];
      }
    }

    method Rename(p: Parts) returns (ok: bool)
      requires p != []
      modifies this`stage, this`output
      ensures ok ==> p in old(stage) && output == old(output)[p := old(stage)[p]] && stage == old(stage) - {p}
      ensures !ok ==> output == old(output) && stage == old(stage)
      ensures reliable && p in old(stage) && IsDirectory(old(output), Parent(p)) && !IsDirectory(old(output), p) ==> ok
    {
      ok := Succeeds(p in stage && IsDirectory(output, Parent(p)) && !IsDirectory(output, p));
      if ok {
        output, stage := output[p := stage[p]], stage - {p};
      }
    }

    /** symlinkInPath */
    method LinkInPath(p: Parts) returns (found: bool)
      ensures found <==> LinkIn(output, p)
    {
      for k := 1 to |p| + 1
        invariant forall j | 0 < j < k :: !(p[..j] in output && output[p[..j]].Link?)
      {
        if p[..k] in output && output[p[..k]].Link? {
          return true;
        }
      }
      return false;
    }

    /** The check pass: the first refusal in the list, and nothing changes. */
    method CheckPass(entries: seq<Parts>) returns (problem: Option<Problem>)
      requires Lists(entries, stage.Keys)
      ensures problem.None? <==> Publishable(stage, output)
      ensures problem.Some? ==> exists i | 0 <= i < |entries| ::
                problem == Refusal(stage, output, entries[i])
                && forall j | 0 <= j < i :: Refusal(stage, output, entries[j]).None?
    {
      hide LinkIn;
      assert forall p | p in entries :: p in stage;
      for i := 0 to |entries|
        invariant forall j | 0 <= j < i :: Refusal(stage, output, entries[j]).None?
      {
        var p := entries[i];
        problem := None;
        var linked := LinkInPath(p);
        if linked {
          problem := Some(OutputLink(p));
        } else if stage[p].Link? {
          problem := Some(ProducedLink(p));
        } else if stage[p].Directory? {
          if p in output && !(output[p].Directory? && output[p].writable) {
            problem := Some(DirectoryConflict(p));
          }
        } else if stage[p].File? {
          if p in output && output[p].Directory? {
            problem := Some(FileConflict(p));
          } else if p in output && !output[p].Link? && !output[p].writable {
            problem := Some(ReadOnly(p));
          }
        } else {
          problem := Some(Unsupported(p));
        }
        if problem.Some? {
          assert problem == Refusal(stage, output, entries[i]);
          return;
        }
      }
      problem := None;
    }

    /** The first i entries have moved, and nothing else. */
    ghost predicate Moved(output0: Tree, stage0: Tree, entries: seq<Parts>, i: nat)
      reads this
    {
      && i <= |entries|
      && output == Overlaid(output0, stage0, entries[..i]) && stage == Left(stage0, entries[..i])
    }

    /** The move pass stops at the first failure and then keeps the stage. */
    method MovePass(entries: seq<Parts>) returns (problem: Option<Problem>)
      requires Rooted(stage) && Publishable(stage, output) && Lists(entries, stage.Keys) && Sorted(entries)
      modifies this, cleanup
      ensures problem.None? ==> Moved(old(output), old(stage), entries, |entries|) && cleanup.paths == old(cleanup.paths)
      ensures problem.Some? ==>
                && name !in cleanup.paths
                && exists i | 0 <= i < |entries| ::
                     Moved(old(output), old(stage), entries, i) && problem.value.at == entries[i]
      ensures reliable ==> problem.None?
    {
      hide Rooted, Publishable, Lists, Sorted, Overlaid, Left, LinkIn;
      problem := None;
      NothingMoved(output, stage);
      for i := 0 to |entries|
        invariant Moved(old(output), old(stage), entries, i) && cleanup.paths == old(cleanup.paths)
      {
        var p := entries[i];
        MoveIsReady(old(output), old(stage), entries, i);
        OverlaysOne(old(output), old(stage), entries, i);
        var linked := LinkInPath(p);
        problem := if linked then Some(BecameLink(p)) else None;
        if problem.None? {
          if stage[p].Directory? {
            if !IsDirectory(output, p) {
              var ok := MakeDirectory(p);
              problem := if ok then None else Some(CannotCreate(p));
            }
          } else {
            var ok := Rename(p);
            problem := if ok then None else Some(CannotPublish(p));
          }
        }
        if problem.Some? {
          cleanup.Keep(name);
          return;
        }
      }
      problem := None;
    }

    /**
     * publishOutput: a refusal leaves both trees alone; otherwise some first
     * part of the entries has moved, all of them unless an operation failed.
     */
    method PublishOutput() returns (problem: Option<Problem>)
      requires Rooted(stage)
      modifies this, cleanup
      ensures !AllClear(old(stage), old(output)) ==>
                && problem.Some? && Explained(old(stage), old(output), problem.value)
                && stage == old(stage) && output == old(output) && cleanup.paths == old(cleanup.paths)
      ensures AllClear(old(stage), old(output)) && reliable ==> problem.None?
      ensures problem.None? ==>
                && Published(old(output), old(stage), output)
                && Unmoved(old(stage), stage)
                && cleanup.paths == old(cleanup.paths)
      ensures problem.Some? && AllClear(old(stage), old(output)) ==>
                && name !in cleanup.paths
                && OnePlace(old(output), old(stage), output, stage)
    {
      hide Rooted, Publishable, Lists, Sorted, Overlaid, Left, OnePlace, Published, Unmoved, AllClear, Explained;
      ClearIs(stage, output);
      var entries := Walk(stage);
      problem := CheckPass(entries);
      if problem.Some? {
        Told(stage, output, entries, problem.value);
        return;
      }
      problem := MovePass(entries);
      if problem.None? {
        AllMoved(old(output), old(stage), entries);
      } else {
        ghost var i :| 0 <= i < |entries| && Moved(old(output), old(stage), entries, i);
        PlacesOf(old(output), old(stage), entries[..i]);
      }
    }
  }

  /** The staged tree laid over the output: files as staged, directories there, all else as it was. */
  ghost predicate Published(output0: Tree, stage0: Tree, output: Tree) {
    && output.Keys == output0.Keys + stage0.Keys
    && forall p | p in output ::
         if p in stage0 && stage0[p].File? then output[p] == stage0[p]
         else if p in output0 then output[p] == output0[p]
         else output[p].Directory? && stage0[p].Directory?
  }

  /** No file is left in the stage, and every other entry is. */
  ghost predicate Unmoved(stage0: Tree, stage: Tree) {
    && (forall p | p in stage :: p in stage0 && stage[p] == stage0[p] && !stage[p].File?)
    && (forall p | p in stage0 && !stage0[p].File? :: p in stage)
  }

  /** Every staged file is whole in one place: it has moved, or what was in its way has not changed. */
  ghost predicate OnePlace(output0: Tree, stage0: Tree, output: Tree, stage: Tree) {
    forall p | p in stage0 && stage0[p].File? ::
      if p in stage then
        stage[p] == stage0[p] && (p in output <==> p in output0) && (p in output ==> output[p] == output0[p])
      else p in output && output[p] == stage0[p]
  }

  lemma Told(stage: Tree, output: Tree, entries: seq<Parts>, problem: Problem)
    requires Rooted(stage) && Lists(entries, stage.Keys)
    requires exists i | 0 <= i < |entries| :: Some(problem) == Refusal(stage, output, entries[i])
    ensures Explained(stage, output, problem)
  {
    hide Refusal, Explained, IsDirectory;
    var i :| 0 <= i < |entries| && Some(problem) == Refusal(stage, output, entries[i]);
    RefusalMeans(stage, output, entries[i]);
  }

  lemma Accepted(stage: Tree, output: Tree, p: Parts)
    requires Rooted(stage) && Publishable(stage, output) && p in stage
    ensures p != [] && (stage[p].File? || stage[p].Directory?)
    ensures stage[p].Directory? && p in output ==> output[p].Directory?
  {
    hide LinkIn, IsDirectory;
    assert Refusal(stage, output, p).None?;
  }

  lemma AllOverlaid(output: Tree, stage: Tree, entries: seq<Parts>)
    requires Lists(entries, stage.Keys)
    requires forall p | p in stage :: p != [] && (stage[p].File? || stage[p].Directory?)
    requires forall p | p in stage && stage[p].Directory? && p in output :: output[p].Directory?
    ensures Published(output, stage, Overlaid(output, stage, entries))
  {
    var now := Overlaid(output, stage, entries);
    forall p ensures p in now <==> p in output || p in stage {
      assert p in stage ==> p in entries;
    }
  }

  lemma AllLeft(stage: Tree, entries: seq<Parts>)
    requires Lists(entries, stage.Keys)
    ensures Unmoved(stage, Left(stage, entries))
  {
  }

  lemma AllMoved(output: Tree, stage: Tree, entries: seq<Parts>)
    requires Rooted(stage) && Publishable(stage, output) && Lists(entries, stage.Keys)
    ensures Published(output, stage, Overlaid(output, stage, entries[..|entries|]))
    ensures Unmoved(stage, Left(stage, entries[..|entries|]))
  {
    hide *;
    assert entries[..|entries|] == entries;
    forall p | p in stage
      ensures p != [] && (stage[p].File? || stage[p].Directory?)
      ensures stage[p].Directory? && p in output ==> output[p].Directory? {
      Accepted(stage, output, p);
    }
    AllOverlaid(output, stage, entries);
    AllLeft(stage, entries);
  }

  lemma PlacesOf(output: Tree, stage: Tree, done: seq<Parts>)
    ensures OnePlace(output, stage, Overlaid(output, stage, done), Left(stage, done))
  {
  }

  lemma NothingMoved(output: Tree, stage: Tree)
    ensures Overlaid(output, stage, []) == output && Left(stage, []) == stage
  {
  }
}
