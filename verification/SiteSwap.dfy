/**
 * The Schema Studio build's swap of a staged site into place, with a process
 * that may be killed, and a file operation that may fail, at every step.
 */
module SiteSwap {
  import opened Prelude

  type Name = string

  datatype Tree = File(text: string) | Dir(kids: map<Name, Tree>)

  type Entries = map<Name, Tree>

  /** Done, an exception, or the end of the process. */
  datatype Outcome = Done | Failed | Killed

  const TRASH_PREFIX := ".trash-"

  predicate Dot(n: Name) {
    n != "" && n[0] == '.'
  }

  predicate Trash(n: Name) {
    TRASH_PREFIX <= n
  }

  lemma TrashIsDot(n: Name)
    ensures Trash(n) ==> Dot(n)
  {
    if Trash(n) {
      assert n[0] == TRASH_PREFIX[0];
    }
  }

  predicate NoDots(entries: Entries) {
    forall n | n in entries :: !Dot(n)
  }

  function Visible(entries: Entries): Entries {
    map n | n in entries && !Dot(n) :: entries[n]
  }

  function Hidden(entries: Entries): Entries {
    map n | n in entries && Dot(n) :: entries[n]
  }

  function Listed(directory: Option<Entries>): Entries {
    if directory.Some? then directory.value else map[]
  }

  /** What a recovery makes of the site: what was set aside comes back, and trash goes. */
  function Recovered(site: Entries, previous: Option<Entries>): Entries {
    (map n | n in site && !Trash(n) :: site[n]) + Listed(previous)
  }

  /** Every entry of `part` is in `whole`, intact. */
  predicate Within(part: Entries, whole: Entries) {
    forall n | n in part :: n in whole && whole[n] == part[n]
  }

  /** What an unfinished removal can leave of a tree. */
  predicate Remains(left: Tree, t: Tree) {
    || left == t
    || (left.Dir? && t.Dir? && forall n | n in left.kids :: n in t.kids && Remains(left.kids[n], t.kids[n]))
  }

  lemma RemovalKeepsKid(left: Entries, t: Tree, n: Name, rest: Tree)
    requires t.Dir? && n in left && Remains(Dir(left), t) && n in t.kids && Remains(rest, t.kids[n])
    ensures Remains(Dir(left[n := rest]), t)
  {
    forall m | m in left[n := rest] ensures m in t.kids && Remains(left[n := rest][m], t.kids[m]) {
      if m != n && Dir(left) != t {
        assert Remains(left[m], t.kids[m]);
      }
    }
  }

  lemma Elsewhere(a: Entries, b: Entries, n: Name)
    requires a - {n} == b - {n}
    ensures forall m | m != n :: (m in a <==> m in b) && (m in a ==> a[m] == b[m])
  {
    forall m | m != n ensures (m in a <==> m in b) && (m in a ==> a[m] == b[m]) {
      assert m in a - {n} <==> m in b - {n};
    }
  }

  /** A name that is set aside, or is trash, does not matter in the site. */
  lemma RecoveredElsewhere(a: Entries, b: Entries, previous: Option<Entries>, n: Name)
    requires a - {n} == b - {n}
    requires n in Listed(previous) || Trash(n)
    ensures Recovered(a, previous) == Recovered(b, previous)
  {
    Elsewhere(a, b, n);
  }

  /** Nor does it matter in which of the two an entry is. */
  lemma RecoveredMoves(site: Entries, previous: Entries, n: Name)
    requires n in previous && !Trash(n)
    ensures Recovered(site[n := previous[n]], Some(previous - {n})) == Recovered(site, Some(previous))
  {
  }

  lemma VisibleRecovered(site: Entries, previous: Option<Entries>)
    requires NoDots(Listed(previous))
    ensures Visible(Recovered(site, previous)) == Visible(site) + Listed(previous)
  {
    forall n | n in site ensures Trash(n) ==> Dot(n) {
      TrashIsDot(n);
    }
  }

  lemma RecoveredSetsAside(site: Entries, previous: Entries, n: Name)
    requires n in site && !Trash(n) && n !in previous
    ensures Recovered(site - {n}, Some(previous[n := site[n]])) == Recovered(site, Some(previous))
  {
  }

  /** `now` has all of `before`, and besides only whole entries of `staged`. */
  predicate Grows(now: Entries, before: Entries, staged: Entries) {
    && Within(before, now)
    && forall n | n in now && n !in before :: n in staged && now[n] == staged[n]
  }

  /** The old site with what has arrived: whatever is staged and no longer in `left`. Old entries win. */
  predicate Mixes(now: Entries, before: Entries, staged: Entries, left: Entries) {
    Within(left, staged) && now == (staged - left.Keys) + before
  }

  lemma MixesGrows(now: Entries, before: Entries, staged: Entries, left: Entries)
    requires Mixes(now, before, staged, left)
    ensures Grows(now, before, staged)
  {
  }

  lemma NothingMixed(before: Entries, staged: Entries)
    ensures Mixes(before, before, staged, staged)
  {
    assert staged - staged.Keys == map[];
  }

  /** The old site comes back exactly when every name that arrived is one of its own. */
  lemma OldSiteExactly(now: Entries, before: Entries, staged: Entries, left: Entries)
    requires Mixes(now, before, staged, left)
    ensures now == before <==> staged.Keys <= before.Keys + left.Keys
  {
    forall n | n in staged && n !in left ensures n in now {
      assert n in staged - left.Keys;
    }
    if staged.Keys <= before.Keys + left.Keys {
      assert (staged - left.Keys).Keys <= before.Keys;
    }
  }

  /** Each name of the directory once. */
  ghost predicate Lists(names: seq<Name>, directory: Entries) {
    && (forall i, j | 0 <= i < j < |names| :: names[i] != names[j])
    && (forall n :: n in names <==> n in directory)
  }

  /** While live entries leave, they are in one place or the other. */
  predicate Leaving(site0: Entries, site: Entries, previous: Entries) {
    && NoDots(previous) && Hidden(site) == Hidden(site0)
    && Visible(site).Keys !! previous.Keys && Visible(site) + previous == Visible(site0)
  }

  lemma NothingLeft(site: Entries)
    ensures Leaving(site, site, map[]) && Lists([], map[])
  {
  }

  lemma LeavesOne(site0: Entries, site: Entries, previous: Entries, moved: seq<Name>, n: Name)
    requires Leaving(site0, site, previous) && Lists(moved, previous) && n in Visible(site)
    ensures n in site && Leaving(site0, site - {n}, previous[n := site[n]])
    ensures Lists(moved + [n], previous[n := site[n]])
    ensures Visible(site - {n}).Keys == Visible(site).Keys - {n}
    ensures Recovered(site - {n}, Some(previous[n := site[n]])) == Recovered(site, Some(previous))
  {
    hide Recovered;
    TrashIsDot(n);
    RecoveredSetsAside(site, previous, n);
  }

  /** While entries return, those before i are back as they were. */
  predicate Returning(moved: seq<Name>, i: nat, aside: Entries, site: Entries, previous: Entries)
    requires i <= |moved|
  {
    && Within(previous, aside) && NoDots(aside)
    && (forall j | i <= j < |moved| :: moved[j] in previous)
    && (forall n | n in aside && n !in moved[i..] :: n in site && site[n] == aside[n])
    && (forall n | n in previous :: n in moved[i..])
  }

  lemma ReturnsOne(moved: seq<Name>, i: nat, aside: Entries, site: Entries, previous: Entries, now: Entries)
    requires i < |moved| && Returning(moved, i, aside, site, previous)
    requires forall i, j | 0 <= i < j < |moved| :: moved[i] != moved[j]
    requires now - {moved[i]} == site - {moved[i]}
    requires moved[i] in now && now[moved[i]] == previous[moved[i]]
    ensures Returning(moved, i + 1, aside, now, previous - {moved[i]})
  {
    Elsewhere(now, site, moved[i]);
    assert moved[i..] == [moved[i]] + moved[i + 1..];
  }

  lemma GrowsItself(now: Entries, staged: Entries)
    ensures Grows(now, now, staged)
  {
  }

  lemma OpensPrevious(site: Entries)
    ensures Recovered(site, Some(map[])) == Recovered(site, None) && NoDots(map[])
    ensures Visible(Recovered(site, None)) == Visible(site)
  {
    VisibleRecovered(site, None);
  }

  /** While staged entries arrive, they too are in one place or the other. */
  predicate Arriving(site0: Entries, staged: Entries, site: Entries, staging: Entries) {
    && NoDots(staged) && Hidden(site) == Hidden(site0)
    && Visible(site).Keys !! staging.Keys && Visible(site) + staging == staged
  }

  lemma NothingArrived(site: Entries, staged: Entries)
    requires NoDots(staged) && Visible(site) == map[]
    ensures Arriving(site, staged, site, staged)
  {
  }

  lemma ArrivesOne(site0: Entries, staged: Entries, site: Entries, staging: Entries, n: Name)
    requires Arriving(site0, staged, site, staging) && n in staging
    ensures Arriving(site0, staged, site[n := staging[n]], staging - {n})
  {
    assert n in staged;
    var now := site[n := staging[n]];
    assert Visible(now) == Visible(site)[n := staging[n]];
    assert Visible(now) + (staging - {n}) == Visible(site) + staging;
  }

  lemma ArrivedAre(site0: Entries, staged: Entries, site: Entries, staging: Entries)
    requires Arriving(site0, staged, site, staging)
    ensures Within(staging, staged) && Visible(site) == staged - staging.Keys
  {
    forall n | n in staging ensures n in staged && staged[n] == staging[n] {
      assert n in Visible(site) + staging;
    }
  }

  /** With the old site set aside whole and the new one half in, a recovery finds the old one and what is in. */
  lemma Midway(site0: Entries, aside: Entries, site: Entries, previous: Entries, staged: Entries, staging: Entries)
    requires NoDots(previous) && previous == Visible(site0)
    requires Arriving(aside, staged, site, staging)
    ensures Mixes(Visible(Recovered(site, Some(previous))), Visible(Recovered(site0, None)), staged, staging)
  {
    VisibleRecovered(site, Some(previous));
    VisibleRecovered(site0, None);
    ArrivedAre(aside, staged, site, staging);
    assert Visible(site0) + map[] == Visible(site0);
  }

  /** The site and what is still staged, after these names have moved. */
  function MoveNames(site: Entries, staging: Entries, names: seq<Name>): (Entries, Entries) {
    if names == [] then (site, staging)
    else
      var n := names[|names| - 1];
      var (now, left) := MoveNames(site, staging, names[..|names| - 1]);
      if n in left then (now[n := left[n]], left - {n}) else (now, left)
  }

  lemma {:induction false} MovesArrive(site: Entries, staged: Entries, names: seq<Name>)
    requires NoDots(staged) && Visible(site) == map[]
    requires forall n | n in names :: n in staged
    ensures var (now, left) := MoveNames(site, staged, names);
            Arriving(site, staged, now, left) && left.Keys == staged.Keys - set n | n in names
  {
    hide Visible, Hidden, NoDots, Arriving;
    if names == [] {
      NothingArrived(site, staged);
    } else {
      var most, n := names[..|names| - 1], names[|names| - 1];
      MovesArrive(site, staged, most);
      var (now, left) := MoveNames(site, staged, most);
      if n in left {
        ArrivesOne(site, staged, now, left, n);
      }
      assert names == most + [n];
    }
  }

  /** What a recovery finds, or a rollback leaves, when publishing stops after these names have moved. */
  function StoppedAt(site0: Entries, staged: Entries, names: seq<Name>): Entries {
    Visible(Recovered(MoveNames(Hidden(site0), staged, names).0, Some(Visible(site0))))
  }

  lemma StoppedExactly(site0: Entries, staged: Entries, names: seq<Name>)
    requires NoDots(staged) && forall n | n in names :: n in staged
    ensures StoppedAt(site0, staged, names) == Visible(site0) <==> forall n | n in names :: n in Visible(site0)
  {
    hide Recovered, Arriving, Mixes;
    var before := Visible(site0);
    var (now, left) := MoveNames(Hidden(site0), staged, names);
    MovesArrive(Hidden(site0), staged, names);
    Midway(site0, Hidden(site0), now, before, staged, left);
    OpensPrevious(site0);
    OldSiteExactly(StoppedAt(site0, staged, names), before, staged, left);
  }

  /**
   * Wherever a publish stops before its commit, the old site comes back
   * exactly: that holds if and only if no staged name is new to it.
   */
  lemma OldSiteAlways(site0: Entries, staged: Entries, names: seq<Name>)
    requires NoDots(staged) && Lists(names, staged)
    ensures (forall k | 0 <= k <= |names| :: StoppedAt(site0, staged, names[..k]) == Visible(site0))
       <==> staged.Keys <= Visible(site0).Keys
  {
    hide StoppedAt, Visible, NoDots;
    forall k | 0 <= k <= |names| {
      StoppedExactly(site0, staged, names[..k]);
    }
    assert names[..|names|] == names;
  }

  /** A rollback follows a failed rename, so the last name has not moved. */
  lemma OldSiteAfterRollBack(site0: Entries, staged: Entries, names: seq<Name>)
    requires NoDots(staged) && Lists(names, staged) && names != []
    ensures (forall k | 0 <= k < |names| :: StoppedAt(site0, staged, names[..k]) == Visible(site0))
       <==> staged.Keys - {names[|names| - 1]} <= Visible(site0).Keys
  {
    hide StoppedAt, Visible, NoDots;
    forall k | 0 <= k < |names| {
      StoppedExactly(site0, staged, names[..k]);
    }
    var most := names[..|names| - 1];
    assert names == most + [names[|names| - 1]];
    assert forall n :: n in most <==> n in staged.Keys - {names[|names| - 1]};
  }

  /** Such a rollback: "a" is new and has moved when the rename of "b" fails. */
  lemma NewNameStays()
    ensures
      var site0: Entries := map["b" := File("old")];
      var staged: Entries := map["a" := File("new"), "b" := File("new")];
      StoppedAt(site0, staged, ["a", "b"][..1]) == map["a" := File("new"), "b" := File("old")]
  {
    var site0: Entries := map["b" := File("old")];
    var staged: Entries := map["a" := File("new"), "b" := File("new")];
    assert ["a", "b"][..1] == ["a"] && ["a"][..0] == [];
    assert MoveNames(Hidden(site0), staged, ["a"]).0 == map["a" := File("new")];
    VisibleRecovered(map["a" := File("new")], Some(Visible(site0)));
  }

  lemma StillWhole(committed: Entries, whole: Entries, now: Entries, staged: Entries, left: Entries)
    requires NoDots(committed) && Within(committed, whole)
    requires now == whole || Mixes(Visible(now), Visible(whole), staged, left)
    ensures Within(committed, now)
  {
    forall n | n in committed ensures n in now && now[n] == committed[n] {
      assert n in Visible(whole);
    }
  }

  lemma AllArrived(aside: Entries, staged: Entries, site: Entries, trash: Name, old0: Tree)
    requires Arriving(aside, staged, site, map[]) && Trash(trash)
    ensures Visible(site[trash := old0]) == staged && NoDots(staged)
    ensures Within(staged, Recovered(site[trash := old0], None))
  {
    TrashIsDot(trash);
    OnlyTrash(site[trash := old0], site[trash := old0], trash);
    assert Visible(site) + map[] == Visible(site);
  }

  lemma OnlyTrash(before: Entries, site: Entries, trash: Name)
    requires Trash(trash) && before - {trash} == site - {trash}
    ensures Visible(site) == Visible(before) && Within(Visible(site), Recovered(site, None))
  {
    TrashIsDot(trash);
    Elsewhere(before, site, trash);
    VisibleRecovered(site, None);
    assert Visible(Recovered(site, None)) == Visible(site);
  }

  /** How a call of publish ends, whether it returns, throws or is killed. */
  datatype Ending =
    | Refused // a leftover .previous: nothing changes
    | Interrupted // before the old site is given up
    | RolledBack // the live entries are all back in place
    | Swapped // the staged site is the site

  /** One file operation: it happens, throws, or the process ends before it. */
  method Attempt() returns (outcome: Outcome) {
    outcome := *;
  }

  /** A whole tree goes, entry by entry, each directory after its entries. */
  method RemoveTree(t: Tree) returns (left: Option<Tree>, outcome: Outcome)
    ensures outcome == Done <==> left == None
    ensures left.Some? ==> Remains(left.value, t)
    decreases t
  {
    left := Some(t);
    if t.Dir? {
      var kids := t.kids;
      while kids != map[]
        invariant kids.Keys <= t.kids.Keys && Remains(Dir(kids), t)
        invariant left == Some(Dir(kids))
        invariant forall n | n in kids :: kids[n] == t.kids[n]
        decreases |kids|
      {
        var n :| n in kids;
        var rest;
        rest, outcome := RemoveTree(t.kids[n]);
        if outcome != Done {
          RemovalKeepsKid(kids, t, n, rest.value);
          return Some(Dir(kids[n := rest.value])), outcome;
        }
        kids := kids - {n};
        left := Some(Dir(kids));
      }
    }
    outcome := Attempt();
    if outcome == Done {
      left := None;
    }
  }

  class Studio {
    /** Everything in the site but the two directories below. */
    var site: Entries
    var previous: Option<Entries>
    var staging: Option<Entries>
    /** The site of the last build that reached its commit point. */
    ghost var committed: Entries

    /** A crash may come at any time: no entry of the committed site is lost. */
    ghost predicate Safe()
      reads this
    {
      && NoDots(Listed(previous)) && NoDots(committed)
      && Within(committed, Recovered(site, previous))
    }

    /** removeTree on an entry of the site */
    method RemoveEntry(n: Name) returns (outcome: Outcome)
      modifies this`site
      ensures site - {n} == old(site) - {n}
      ensures n !in old(site) ==> outcome == Done
      ensures outcome == Done ==> n !in site
      ensures outcome != Done ==> n in site && Remains(site[n], old(site)[n])
    {
      if n !in site {
        return Done;
      }
      var left;
      left, outcome := RemoveTree(site[n]);
      site := if left.Some? then site[n := left.value] else site - {n};
    }

    /** A live entry comes back from .previous, over any half-moved new one. */
    method PutBack(n: Name) returns (outcome: Outcome)
      requires previous.Some? && n in previous.value && NoDots(previous.value)
      modifies this`site, this`previous
      ensures Recovered(site, previous) == old(Recovered(site, previous))
      ensures previous.Some? && site - {n} == old(site) - {n}
      ensures outcome == Done ==> n in site && site[n] == old(previous.value[n])
      ensures previous.value == if outcome == Done then old(previous.value) - {n} else old(previous.value)
    {
      TrashIsDot(n);
      ghost var before := site;
      outcome := RemoveEntry(n);
      RecoveredElsewhere(site, before, previous, n);
      if outcome == Done {
        outcome := Attempt();
        if outcome == Done {
          RecoveredMoves(site, previous.value, n);
          site, previous := site[n := previous.value[n]], Some(previous.value - {n});
        }
      }
    }

    method RemovePrevious() returns (outcome: Outcome)
      requires Listed(previous) == map[]
      modifies this`previous
      ensures Listed(previous) == map[]
      ensures outcome == Done ==> previous == None
    {
      if previous == None {
        return Done;
      }
      outcome := Attempt();
      if outcome == Done {
        previous := None;
      }
    }

    method RemoveStaging() returns (outcome: Outcome)
      modifies this`staging
      ensures outcome == Done ==> staging == None
    {
      if staging == None {
        return Done;
      }
      var left;
      left, outcome := RemoveTree(Dir(staging.value));
      staging := if left.Some? && left.value.Dir? then Some(left.value.kids) else None;
    }

    /** Recovery is restartable: what it is heading for never changes, and that is what it ends with. */
    method Recover() returns (outcome: Outcome)
      requires Safe()
      modifies this`site, this`previous
      ensures Safe()
      ensures Recovered(site, previous) == old(Recovered(site, previous))
      ensures outcome == Done ==> previous == None && site == old(Recovered(site, previous))
    {
      var names := Listed(previous).Keys;
      while names != {}
        invariant names == Listed(previous).Keys && NoDots(Listed(previous))
        invariant Recovered(site, previous) == old(Recovered(site, previous))
      {
        var n :| n in names;
        names := names - {n};
        outcome := PutBack(n);
        if outcome != Done {
          return;
        }
      }
      assert Listed(previous) == map[];
      outcome := RemovePrevious();
      if outcome != Done {
        return;
      }
      names := set n | n in site && Trash(n);
      while names != {}
        invariant previous == None
        invariant forall n | n in site && Trash(n) :: n in names
        invariant forall n | n in names :: Trash(n)
        invariant Recovered(site, None) == old(Recovered(site, previous))
      {
        var n :| n in names;
        names := names - {n};
        ghost var before := site;
        outcome := RemoveEntry(n);
        Elsewhere(site, before, n);
        RecoveredElsewhere(site, before, None, n);
        if outcome != Done {
          return;
        }
      }
      outcome := Done;
    }
  
    /** Every entry that was set aside returns, in the order it left. */
    method RollBack(moved: seq<Name>) returns (outcome: Outcome)
      requires previous.Some? && NoDots(previous.value) && Lists(moved, previous.value)
      modifies this`site, this`previous
      ensures Recovered(site, previous) == old(Recovered(site, previous)) && NoDots(Listed(previous))
      ensures outcome == Done ==> Listed(previous) == map[] && Within(old(previous.value), site)
    {
      hide Recovered;
      ghost var aside := previous.value;
      for i := 0 to |moved|
        invariant previous.Some? && Returning(moved, i, aside, site, previous.value)
        invariant Recovered(site, previous) == old(Recovered(site, previous))
      {
        ghost var before, left := site, previous.value;
        outcome := PutBack(moved[i]);
        if outcome != Done {
          return;
        }
        ReturnsOne(moved, i, aside, before, left, site);
      }
      outcome := Done;
    }

    /** The live entries leave for .previous. */
    method SetAside() returns (moved: seq<Name>, outcome: Outcome)
      requires previous == Some(map[])
      modifies this`site, this`previous
      ensures Recovered(site, previous) == old(Recovered(site, previous))
      ensures previous.Some? && NoDots(previous.value) && Hidden(site) == old(Hidden(site))
      ensures outcome == Done ==> Visible(site) == map[] && previous.value == old(Visible(site))
      ensures Lists(moved, previous.value)
    {
      hide Recovered, Visible, Hidden, Lists;
      moved := [];
      NothingLeft(site);
      var names := Visible(site).Keys;
      while names != {}
        invariant previous.Some? && Leaving(old(site), site, previous.value) && Lists(moved, previous.value)
        invariant names == Visible(site).Keys
        invariant Recovered(site, previous) == old(Recovered(site, previous))
      {
        var n :| n in names;
        names := names - {n};
        outcome := Attempt();
        if outcome != Done {
          return;
        }
        LeavesOne(old(site), site, previous.value, moved, n);
        site, previous, moved := site - {n}, Some(previous.value[n := site[n]]), moved + [n];
      }
      outcome := Done;
    }

    /** Each staged entry moves into the site, where its name is free. */
    method MoveIn() returns (outcome: Outcome, ghost moved: seq<Name>)
      requires NoDots(Listed(staging)) && Visible(site) == map[]
      modifies this`site, this`staging
      ensures (site, Listed(staging)) == MoveNames(old(site), old(Listed(staging)), moved)
      ensures forall n | n in moved :: n in old(Listed(staging))
      ensures Arriving(old(site), old(Listed(staging)), site, Listed(staging))
      ensures if outcome == Done then Listed(staging) == map[] else Listed(staging) != map[]
    {
      hide Visible, Hidden, NoDots, Arriving;
      NothingArrived(site, Listed(staging));
      moved := [];
      var names := Listed(staging).Keys;
      while names != {}
        invariant names == Listed(staging).Keys && names <= old(Listed(staging)).Keys
        invariant (site, Listed(staging)) == MoveNames(old(site), old(Listed(staging)), moved)
        invariant forall n | n in moved :: n in old(Listed(staging))
        invariant Arriving(old(site), old(Listed(staging)), site, Listed(staging))
      {
        var n :| n in names;
        names := names - {n};
        outcome := Attempt();
        if outcome != Done {
          return;
        }
        ArrivesOne(old(site), old(Listed(staging)), site, staging.value, n);
        assert (moved + [n])[..|moved|] == moved;
        moved := moved + [n];
        site, staging := site[n := staging.value[n]], Some(staging.value - {n});
      }
      outcome := Done;
    }

    /** Up to the commit the old site can come back whole; from then on the new one stands. */
    method Publish(suffix: string) returns (outcome: Outcome, ghost ending: Ending)
      requires Safe() && NoDots(Listed(staging))
      modifies this
      ensures Safe()
      ensures ending == Refused <==> old(previous).Some?
      ensures ending == Refused ==> outcome != Done && unchanged(this)
      ensures ending != Swapped ==> outcome != Done && committed == old(committed)
      ensures ending != Swapped ==>
                Mixes(Visible(Recovered(site, previous)), Visible(old(Recovered(site, previous))),
                      old(Listed(staging)), Listed(staging))
      ensures ending == RolledBack ==>
                Listed(previous) == map[] && Within(old(Visible(site)), site) && Listed(staging) != map[]
      ensures ending == Swapped ==> committed == old(Listed(staging)) == Visible(site) && previous == None
      ensures outcome == Done ==> staging == None && TRASH_PREFIX + suffix !in site
    {
      hide Recovered, Visible, Hidden, Within, NoDots, Mixes, Arriving, Trash;
      ghost var staged := Listed(staging);
      ghost var whole := Recovered(site, previous);
      ending := Refused;
      NothingMixed(Visible(whole), staged);
      if previous.Some? {
        return Failed, ending;
      }
      ending := Interrupted;
      outcome := Attempt();
      if outcome != Done {
        return;
      }
      OpensPrevious(site);
      previous := Some(map[]);
      var moved;
      moved, outcome := SetAside();
      StillWhole(committed, whole, Recovered(site, previous), staged, Listed(staging));
      if outcome != Done {
        return;
      }
      ghost var aside := site;
      ghost var arrived;
      outcome, arrived := MoveIn();
      Midway(old(site), aside, site, previous.value, staged, Listed(staging));
      StillWhole(committed, whole, Recovered(site, previous), staged, Listed(staging));
      if outcome == Failed {
        outcome := RollBack(moved);
        ending := if outcome == Done then RolledBack else Interrupted;
        return if outcome == Killed then Killed else Failed, ending;
      }
      if outcome != Done {
        return;
      }
      var trash := TRASH_PREFIX + suffix;
      outcome := Attempt();
      if outcome != Done {
        return;
      }
      if trash in site && site[trash] != Dir(map[]) {
        return Failed, ending;
      }
      AllArrived(aside, staged, site, trash, Dir(previous.value));
      site, previous, committed := site[trash := Dir(previous.value)], None, staged;
      ending := Swapped;
      ghost var swapped := site;
      outcome := RemoveEntry(trash);
      OnlyTrash(swapped, site, trash);
      if outcome == Done {
        outcome := RemoveStaging();
      }
    }
  
    /** Staging writes only below .staging, and stops anywhere. */
    method Stage(staged: Entries) returns (outcome: Outcome)
      modifies this`staging
      ensures outcome == Done ==> staging == Some(staged)
    {
      outcome := Attempt();
      if outcome == Done {
        staging := Some(staged);
      } else {
        var partial: Option<Entries> := *;
        staging := partial;
      }
    }

    /** One run of the build. Whatever stops it, it loses no entry of the last site. */
    method Build(staged: Entries, suffix: string) returns (outcome: Outcome, ghost swapped: bool)
      requires Safe() && NoDots(staged)
      modifies this
      ensures Safe()
      ensures swapped ==> committed == staged == Visible(site) && previous == None
      ensures !swapped ==> outcome != Done && committed == old(committed)
      ensures !swapped ==>
                Grows(Visible(Recovered(site, previous)), Visible(old(Recovered(site, previous))), staged)
      ensures !swapped && staged.Keys <= Visible(old(Recovered(site, previous))).Keys ==>
                Visible(Recovered(site, previous)) == Visible(old(Recovered(site, previous)))
      ensures outcome == Done ==> staging == None
    {
      swapped := false;
      ghost var whole := Recovered(site, previous);
      hide Recovered, Visible, Within, NoDots, Grows, Mixes;
      GrowsItself(Visible(whole), staged);
      outcome := Recover();
      if outcome != Done {
        return;
      }
      RecoveredTwice(old(site), old(previous));
      outcome := RemoveStaging();
      if outcome != Done {
        return;
      }
      outcome := Stage(staged);
      if outcome == Failed {
        var cleanup := RemoveStaging();
        outcome := if cleanup == Killed then Killed else Failed;
      }
      if outcome != Done {
        return;
      }
      ghost var ending;
      outcome, ending := Publish(suffix);
      swapped := ending == Swapped;
      if !swapped {
        MixesGrows(Visible(Recovered(site, previous)), Visible(whole), staged, Listed(staging));
        OldSiteExactly(Visible(Recovered(site, previous)), Visible(whole), staged, Listed(staging));
      }
    }
  }

  lemma RecoveredTwice(site: Entries, previous: Option<Entries>)
    requires NoDots(Listed(previous))
    ensures Recovered(Recovered(site, previous), None) == Recovered(site, previous)
  {
    forall n | n in Listed(previous) ensures !Trash(n) {
      TrashIsDot(n);
    }
  }

  datatype Plan = Plan(staged: Entries, suffix: string)

  predicate Buildable(plans: seq<Plan>) {
    forall i | 0 <= i < |plans| :: NoDots(plans[i].staged)
  }

  /** Every visible entry is of the committed site, or whole from one of the first builds. */
  predicate Accounted(now: Entries, first: Entries, plans: seq<Plan>) {
    forall n | n in now ::
      || (n in first && now[n] == first[n])
      || exists i | 0 <= i < |plans| :: n in plans[i].staged && now[n] == plans[i].staged[n]
  }

  /**
   * Any number of builds, each stopped anywhere or not at all: the site of
   * the last one to commit stays recoverable, and no torn entry is visible.
   */
  method Builds(studio: Studio, plans: seq<Plan>) returns (ghost last: Option<nat>)
    requires studio.Safe() && Buildable(plans)
    modifies studio
    ensures studio.Safe()
    ensures last.Some? ==> last.value < |plans| && studio.committed == plans[last.value].staged
    ensures last.None? ==> studio.committed == old(studio.committed)
    ensures Accounted(
              Visible(Recovered(studio.site, studio.previous)),
              Visible(old(Recovered(studio.site, studio.previous))), plans)
  {
    last := None;
    ghost var first := Visible(Recovered(studio.site, studio.previous));
    for i := 0 to |plans|
      invariant studio.Safe()
      invariant last.Some? ==> last.value < i && studio.committed == plans[last.value].staged
      invariant last.None? ==> studio.committed == old(studio.committed)
      invariant Accounted(Visible(Recovered(studio.site, studio.previous)), first, plans[..i])
    {
      ghost var before := Visible(Recovered(studio.site, studio.previous));
      ghost var swapped;
      var outcome;
      outcome, swapped := studio.Build(plans[i].staged, plans[i].suffix);
      if swapped {
        last := Some(i);
        VisibleRecovered(studio.site, studio.previous);
      }
      AccountedOne(Visible(Recovered(studio.site, studio.previous)), before, first, plans, i);
    }
    assert plans[..|plans|] == plans;
  }

  lemma AccountedOne(now: Entries, before: Entries, first: Entries, plans: seq<Plan>, i: nat)
    requires i < |plans| && Accounted(before, first, plans[..i])
    requires Grows(now, before, plans[i].staged) || now == plans[i].staged
    ensures Accounted(now, first, plans[..i + 1])
  {
    var longer := plans[..i + 1];
    forall n | n in now
      ensures (n in first && now[n] == first[n])
           || exists k | 0 <= k < |longer| :: n in longer[k].staged && now[n] == longer[k].staged[n]
    {
      if n in plans[i].staged && now[n] == plans[i].staged[n] {
        assert longer[i] == plans[i];
      } else {
        assert n in before && before[n] == now[n];
        if !(n in first && now[n] == first[n]) {
          var k :| 0 <= k < i && n in plans[..i][k].staged && before[n] == plans[..i][k].staged[n];
          assert longer[k] == plans[..i][k];
        }
      }
    }
  }
}
