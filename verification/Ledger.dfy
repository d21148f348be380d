/**
 * The nightly-confidence ledger: how many days in a row passed, and the
 * checker of a ledger's consistency. Dates are day numbers.
 */
module Ledger {
  import opened Prelude

  const DAY := 86400

  const LEDGER_NAME := "nightly-confidence.json"

  /** A workflow run; `created` counts seconds. */
  datatype Run = Run(
    id: nat, attempt: nat, event: string, status: string, conclusion: Option<string>,
    headSha: string, created: int, url: string)

  datatype Cycle = Cycle(date: int, runId: nat, runAttempt: nat, runUrl: string, headSha: string)

  datatype Kind = Conclusion | Rerun | Missed

  datatype StreakEnd = StreakEnd(date: int, kind: Kind, runUrl: Option<string>)

  datatype Streak = Streak(cycles: seq<Cycle>, end: Option<StreakEnd>)

  function Date(r: Run): int {
    r.created / DAY
  }

  function DayBefore(date: int): int {
    date - 1
  }

  predicate Scheduled(r: Run) {
    r.event == "schedule"
  }

  predicate Completed(r: Run) {
    Scheduled(r) && r.status == "completed"
  }

  predicate Pending(r: Run) {
    Scheduled(r) && r.status != "completed"
  }

  predicate Qualifies(r: Run) {
    r.conclusion == Some("success") && r.attempt == 1
  }

  function CycleOf(r: Run): Cycle {
    Cycle(Date(r), r.id, r.attempt, r.url, r.headSha)
  }

  // ----------------------------------------------------------------- sorting

  predicate Newer(a: Run, b: Run) {
    a.created > b.created || (a.created == b.created && a.id > b.id)
  }

  /** Newest first. */
  predicate Sorted(s: seq<Run>) {
    forall i, j | 0 <= i < j < |s| :: !Newer(s[j], s[i])
  }

  lemma SortedCons(r: Run, s: seq<Run>)
    requires Sorted(s) && forall q | q in s :: !Newer(q, r)
    ensures Sorted([r] + s)
  {
    var t := [r] + s;
    forall i, j | 0 <= i < j < |t| ensures !Newer(t[j], t[i]) {
      assert t[j] == s[j - 1];
    }
  }

  function Insert(r: Run, s: seq<Run>): seq<Run> {
    if s == [] || !Newer(s[0], r) then [r] + s else [s[0]] + Insert(r, s[1..])
  }

  lemma {:induction false} InsertSorts(r: Run, s: seq<Run>)
    requires Sorted(s)
    ensures Sorted(Insert(r, s)) && multiset(Insert(r, s)) == multiset(s) + multiset{r}
  {
    if s == [] || !Newer(s[0], r) {
      SortedCons(r, s);
    } else {
      InsertSorts(r, s[1..]);
      var rest := Insert(r, s[1..]);
      assert s == [s[0]] + s[1..];
      forall q | q in rest ensures !Newer(q, s[0]) {
        assert q in multiset(rest);
      }
      SortedCons(s[0], rest);
    }
  }

  function Sort(runs: seq<Run>): seq<Run> {
    if runs == [] then [] else Insert(runs[0], Sort(runs[1..]))
  }

  /** Sorting by age is an ordered rearrangement. */
  lemma {:induction false} SortSorts(runs: seq<Run>)
    ensures Sorted(Sort(runs)) && multiset(Sort(runs)) == multiset(runs)
  {
    if runs != [] {
      SortSorts(runs[1..]);
      InsertSorts(runs[0], Sort(runs[1..]));
      assert runs == [runs[0]] + runs[1..];
    }
  }

  function Filter(s: seq<Run>, keep: Run -> bool): (t: seq<Run>)
    ensures forall r :: r in t <==> r in s && keep(r)
  {
    if s == [] then [] else if keep(s[0]) then [s[0]] + Filter(s[1..], keep) else Filter(s[1..], keep)
  }

  lemma {:induction false} FilterSorted(s: seq<Run>, keep: Run -> bool)
    requires Sorted(s)
    ensures Sorted(Filter(s, keep))
  {
    if s != [] {
      FilterSorted(s[1..], keep);
      if keep(s[0]) {
        SortedCons(s[0], Filter(s[1..], keep));
      }
    }
  }

  // ------------------------------------------------- what a streak must be

  /** A completed run on that day. */
  predicate On(runs: seq<Run>, date: int) {
    exists r :: r in runs && Completed(r) && Date(r) == date
  }

  /** Nothing but first-attempt successes on that day. */
  predicate Good(runs: seq<Run>, date: int) {
    forall r | r in runs && Completed(r) && Date(r) == date :: Qualifies(r)
  }

  predicate NewestOf(runs: seq<Run>, r: Run, date: int) {
    && r in runs && Completed(r) && Date(r) == date
    && forall q | q in runs && Completed(q) && Date(q) == date :: !Newer(q, r)
  }

  /** A cycle is the newest completed run of its day, and a first-attempt success. */
  ghost predicate Counted(runs: seq<Run>, c: Cycle) {
    exists r :: NewestOf(runs, r, c.date) && Qualifies(r) && CycleOf(r) == c
  }

  ghost predicate CyclesHold(runs: seq<Run>, today: int, cycles: seq<Cycle>) {
    && (forall i | 0 <= i < |cycles| :: Counted(runs, cycles[i]))
    && (forall i | 0 < i < |cycles| :: cycles[i].date == DayBefore(cycles[i - 1].date))
    && (forall i | 0 <= i < |cycles| - 1 :: Good(runs, cycles[i].date))
    && (cycles != [] ==>
          && cycles[0].date >= DayBefore(today)
          && forall r | r in runs && Completed(r) :: Date(r) <= cycles[0].date)
  }

  /** The newest pending run of a day without a completed one. */
  predicate PendingOn(runs: seq<Run>, date: int, runUrl: Option<string>) {
    match runUrl
    case None => forall r | r in runs && Pending(r) :: Date(r) != date
    case Some(url) =>
      exists r :: r in runs && Pending(r) && Date(r) == date && r.url == url
        && forall q | q in runs && Pending(q) && Date(q) == date :: !Newer(q, r)
  }

  /** The newest run that does not qualify, and the first of its day where that day is not counted. */
  predicate Breaks(runs: seq<Run>, r: Run) {
    && r in runs && Completed(r) && !Qualifies(r)
    && forall q | q in runs && Completed(q) && Newer(q, r) :: Qualifies(q)
  }

  predicate BrokenBy(runs: seq<Run>, today: int, cycles: seq<Cycle>, e: StreakEnd, r: Run) {
    && Breaks(runs, r) && Date(r) == e.date && e.runUrl == Some(r.url)
    && e.kind == (if r.conclusion == Some("success") then Rerun else Conclusion)
    && if cycles == [] then
         e.date >= DayBefore(today) && forall q | q in runs && Completed(q) :: !Newer(q, r)
       else
         var oldest := cycles[|cycles| - 1].date;
         || e.date == oldest
         || (e.date == DayBefore(oldest) && Good(runs, oldest) && NewestOf(runs, r, e.date))
  }

  /** Why the count stops where it does. */
  ghost predicate EndHolds(runs: seq<Run>, today: int, cycles: seq<Cycle>, end: Option<StreakEnd>) {
    match end
    case None =>
      if cycles == [] then forall r | r in runs :: !Completed(r)
      else
        var oldest := cycles[|cycles| - 1].date;
        Good(runs, oldest) && forall r | r in runs && Scheduled(r) :: Date(r) >= oldest
    case Some(e) =>
      if e.kind == Missed then
        var last := if cycles == [] then today else cycles[|cycles| - 1].date;
        && e.date == DayBefore(last) && !On(runs, e.date) && PendingOn(runs, e.date, e.runUrl)
        && if cycles == [] then
             && (exists r :: r in runs && Completed(r) && Date(r) < e.date)
             && (forall r | r in runs && Completed(r) :: Date(r) < e.date)
           else
             Good(runs, last) && exists r :: r in runs && Scheduled(r) && Date(r) < last
      else
        exists r :: BrokenBy(runs, today, cycles, e, r)
  }

  ghost predicate IsStreak(runs: seq<Run>, today: int, s: Streak) {
    CyclesHold(runs, today, s.cycles) && EndHolds(runs, today, s.cycles, s.end)
  }

  // --------------------------------------------------------------- the walk

  function Oldest(cycles: seq<Cycle>): int
    requires cycles != []
  {
    cycles[|cycles| - 1].date
  }

  lemma DateOrder(a: Run, b: Run)
    requires !Newer(b, a)
    ensures Date(b) <= Date(a)
  {
  }

  /** The cycle is the first completed run of its day in the list, before i. */
  ghost predicate First(completed: seq<Run>, i: nat, c: Cycle)
    requires i <= |completed|
  {
    exists j | 0 <= j < i ::
      CycleOf(completed[j]) == c && (j == 0 || Date(completed[j - 1]) != Date(completed[j]))
  }

  /** The state of the loop after i completed runs. */
  ghost predicate Walked(completed: seq<Run>, i: nat, today: int, cycles: seq<Cycle>)
    requires i <= |completed|
  {
    && (i == 0 <==> cycles == [])
    && (forall j | 0 <= j < i :: Qualifies(completed[j]))
    && (forall k | 0 <= k < |cycles| :: First(completed, i, cycles[k]))
    && (forall k | 0 < k < |cycles| :: cycles[k].date == DayBefore(cycles[k - 1].date))
    && (cycles != [] ==>
          && Oldest(cycles) == Date(completed[i - 1])
          && cycles[0].date == Date(completed[0]) >= DayBefore(today))
  }

  lemma FirstLater(completed: seq<Run>, i: nat, c: Cycle)
    requires i < |completed| && First(completed, i, c)
    ensures First(completed, i + 1, c)
  {
    var j :| 0 <= j < i && CycleOf(completed[j]) == c && (j == 0 || Date(completed[j - 1]) != Date(completed[j]));
    assert CycleOf(completed[j]) == c;
  }

  lemma WalksOne(completed: seq<Run>, i: nat, today: int, cycles: seq<Cycle>)
    requires i < |completed| && Walked(completed, i, today, cycles) && Sorted(completed)
    requires Qualifies(completed[i])
    requires cycles == [] ==> Date(completed[i]) >= DayBefore(today)
    requires cycles != [] && Date(completed[i]) != Oldest(cycles) ==>
               Date(completed[i]) >= DayBefore(Oldest(cycles))
    ensures Walked(completed, i + 1, today,
                   if cycles != [] && Date(completed[i]) == Oldest(cycles) then cycles
                   else cycles + [CycleOf(completed[i])])
  {
    hide First;
    var longer := if cycles != [] && Date(completed[i]) == Oldest(cycles) then cycles
                  else cycles + [CycleOf(completed[i])];
    forall k | 0 <= k < |cycles| ensures First(completed, i + 1, cycles[k]) {
      FirstLater(completed, i, cycles[k]);
    }
    if i > 0 {
      DateOrder(completed[i - 1], completed[i]);
    }
    if longer != cycles {
      FirstNow(completed, i);
    }
  }

  lemma FirstNow(completed: seq<Run>, i: nat)
    requires i < |completed| && (i == 0 || Date(completed[i - 1]) != Date(completed[i]))
    ensures First(completed, i + 1, CycleOf(completed[i]))
  {
    assert CycleOf(completed[i]) == CycleOf(completed[i]);
  }

  /** The completed runs, newest first. */
  predicate Listing(runs: seq<Run>, completed: seq<Run>) {
    Sorted(completed) && (forall r | r in completed :: r in runs && Completed(r))
    && (forall r | r in runs && Completed(r) :: r in completed)
  }

  lemma Position(completed: seq<Run>, i: nat, j: nat)
    requires Sorted(completed) && i <= j < |completed|
    ensures Date(completed[j]) <= Date(completed[i]) && !Newer(completed[j], completed[i])
  {
    DateOrder(completed[i], completed[j]);
  }

  lemma FirstIsCounted(runs: seq<Run>, completed: seq<Run>, i: nat, c: Cycle)
    requires Listing(runs, completed) && i <= |completed|
    requires First(completed, i, c) && forall j | 0 <= j < i :: Qualifies(completed[j])
    ensures Counted(runs, c)
  {
    var j :| 0 <= j < i && CycleOf(completed[j]) == c && (j == 0 || Date(completed[j - 1]) != Date(completed[j]));
    FirstIsNewest(runs, completed, j);
  }

  lemma FirstIsNewest(runs: seq<Run>, completed: seq<Run>, j: nat)
    requires Listing(runs, completed) && j < |completed|
    requires j == 0 || Date(completed[j - 1]) != Date(completed[j])
    ensures NewestOf(runs, completed[j], Date(completed[j]))
  {
    var r := completed[j];
    forall q | q in runs && Completed(q) && Date(q) == Date(r) ensures !Newer(q, r) {
      var k :| 0 <= k < |completed| && completed[k] == q;
      if k < j {
        assert false;
      }
    }
  }

  /** A day before which the walk has gone is good. */
  lemma PassedIsGood(runs: seq<Run>, completed: seq<Run>, i: nat, date: int)
    requires Listing(runs, completed) && i <= |completed|
    requires forall j | 0 <= j < i :: Qualifies(completed[j])
    requires i < |completed| ==> Date(completed[i]) < date
    ensures Good(runs, date)
  {
    forall r | r in runs && Completed(r) && Date(r) == date ensures Qualifies(r) {
      var k :| 0 <= k < |completed| && completed[k] == r;
      if i <= k {
        Position(completed, i, k);
      }
    }
  }

  lemma Descends(cycles: seq<Cycle>, i: nat, j: nat)
    requires forall k | 0 < k < |cycles| :: cycles[k].date == DayBefore(cycles[k - 1].date)
    requires i <= j < |cycles|
    ensures cycles[j].date == cycles[i].date - (j - i)
  {
    if i < j {
      Descends(cycles, i, j - 1);
    }
  }

  lemma WalkedHolds(runs: seq<Run>, completed: seq<Run>, i: nat, today: int, cycles: seq<Cycle>)
    requires Listing(runs, completed) && i <= |completed| && Walked(completed, i, today, cycles)
    ensures CyclesHold(runs, today, cycles)
  {
    hide First, Counted, Good;
    forall k | 0 <= k < |cycles| ensures Counted(runs, cycles[k]) {
      FirstIsCounted(runs, completed, i, cycles[k]);
    }
    forall k | 0 <= k < |cycles| - 1 ensures Good(runs, cycles[k].date) {
      Descends(cycles, k, |cycles| - 1);
      if i < |completed| {
        Position(completed, i - 1, i);
      }
      PassedIsGood(runs, completed, i, cycles[k].date);
    }
    if cycles != [] {
      forall r | r in runs && Completed(r) ensures Date(r) <= cycles[0].date {
        var k :| 0 <= k < |completed| && completed[k] == r;
        Position(completed, 0, k);
      }
    }
  }

  /** The end of a missed day: whether a run of that day is still in progress. */
  method MissedEnd(runs: seq<Run>, scheduled: seq<Run>, due: int) returns (end: StreakEnd)
    requires Sorted(scheduled) && forall r :: r in scheduled <==> r in runs && Scheduled(r)
    ensures end.date == due && end.kind == Missed && PendingOn(runs, due, end.runUrl)
  {
    hide Date, PendingOn, Sorted;
    for i := 0 to |scheduled|
      invariant forall j | 0 <= j < i :: !(Pending(scheduled[j]) && Date(scheduled[j]) == due)
    {
      if Pending(scheduled[i]) && Date(scheduled[i]) == due {
        PendingFound(runs, scheduled, i, due);
        return StreakEnd(due, Missed, Some(scheduled[i].url));
      }
    }
    PendingNone(runs, scheduled, due);
    return StreakEnd(due, Missed, None);
  }

  lemma PendingFound(runs: seq<Run>, scheduled: seq<Run>, i: nat, due: int)
    requires Sorted(scheduled) && forall r :: r in scheduled <==> r in runs && Scheduled(r)
    requires i < |scheduled| && Pending(scheduled[i]) && Date(scheduled[i]) == due
    requires forall j | 0 <= j < i :: !(Pending(scheduled[j]) && Date(scheduled[j]) == due)
    ensures PendingOn(runs, due, Some(scheduled[i].url))
  {
    hide Date;
    forall q | q in runs && Pending(q) && Date(q) == due ensures !Newer(q, scheduled[i]) {
      var k :| 0 <= k < |scheduled| && scheduled[k] == q;
    }
  }

  lemma PendingNone(runs: seq<Run>, scheduled: seq<Run>, due: int)
    requires forall r :: r in scheduled <==> r in runs && Scheduled(r)
    requires forall j | 0 <= j < |scheduled| :: !(Pending(scheduled[j]) && Date(scheduled[j]) == due)
    ensures PendingOn(runs, due, None)
  {
    hide Date;
  }

  lemma MissedHolds(runs: seq<Run>, completed: seq<Run>, i: nat, today: int, cycles: seq<Cycle>, end: StreakEnd)
    requires Listing(runs, completed) && i < |completed| && Walked(completed, i, today, cycles)
    requires var last := if cycles == [] then today else Oldest(cycles);
             && (cycles == [] || Date(completed[i]) != last) && Date(completed[i]) < DayBefore(last)
             && end.date == DayBefore(last) && end.kind == Missed && PendingOn(runs, end.date, end.runUrl)
    ensures EndHolds(runs, today, cycles, Some(end))
  {
    hide First, Good, PendingOn;
    forall r | r in runs && Completed(r) ensures Date(r) != end.date && (cycles == [] ==> Date(r) < end.date) {
      var k :| 0 <= k < |completed| && completed[k] == r;
      if i <= k {
        Position(completed, i, k);
      } else {
        Position(completed, k, i - 1);
      }
    }
    assert completed[i] in runs;
    if cycles != [] {
      PassedIsGood(runs, completed, i, Oldest(cycles));
    }
  }

  lemma BrokenHolds(runs: seq<Run>, completed: seq<Run>, i: nat, today: int, cycles: seq<Cycle>, end: StreakEnd)
    requires Listing(runs, completed) && i < |completed| && Walked(completed, i, today, cycles)
    requires var last := if cycles == [] then today else Oldest(cycles);
             (cycles != [] && Date(completed[i]) == last) || Date(completed[i]) >= DayBefore(last)
    requires !Qualifies(completed[i]) && end.date == Date(completed[i]) && end.runUrl == Some(completed[i].url)
    requires end.kind == if completed[i].conclusion == Some("success") then Rerun else Conclusion
    ensures EndHolds(runs, today, cycles, Some(end))
  {
    hide First, Good, NewestOf;
    var r := completed[i];
    forall q | q in runs && Completed(q) && Newer(q, r) ensures Qualifies(q) && cycles != [] {
      var k :| 0 <= k < |completed| && completed[k] == q;
      if i <= k {
        Position(completed, i, k);
      }
    }
    if cycles != [] {
      Position(completed, i - 1, i);
      if Date(r) != Oldest(cycles) {
        PassedIsGood(runs, completed, i, Oldest(cycles));
        FirstIsNewest(runs, completed, i);
      }
    }
    assert BrokenBy(runs, today, cycles, end, r);
  }

  lemma AllCounted(runs: seq<Run>, completed: seq<Run>, today: int, cycles: seq<Cycle>)
    requires Listing(runs, completed) && Walked(completed, |completed|, today, cycles)
    ensures cycles == [] ==> forall r | r in runs :: !Completed(r)
    ensures cycles != [] ==> Good(runs, Oldest(cycles)) && !On(runs, DayBefore(Oldest(cycles)))
    ensures forall r | r in runs && Completed(r) :: cycles != [] && Date(r) >= Oldest(cycles)
  {
    hide First, Good;
    forall r | r in runs && Completed(r) ensures cycles != [] && Date(r) >= Oldest(cycles) {
      var k :| 0 <= k < |completed| && completed[k] == r;
      Position(completed, k, |completed| - 1);
    }
    if cycles != [] {
      PassedIsGood(runs, completed, |completed|, Oldest(cycles));
    }
  }

  /** computeStreak */
  method ComputeStreak(runs: seq<Run>, today: int) returns (streak: Streak)
    ensures IsStreak(runs, today, streak)
  {
    hide Walked, EndHolds, CyclesHold, PendingOn, Sorted;
    var scheduled := Sort(Filter(runs, Scheduled));
    Rearranged(Filter(runs, Scheduled));
    var completed := Filter(scheduled, Completed);
    FilterSorted(scheduled, Completed);
    assert Listing(runs, completed);
    var cycles: seq<Cycle> := [];
    var counted: Option<int> := None;
    NothingWalked(completed, today);
    for i := 0 to |completed|
      invariant Walked(completed, i, today, cycles)
      invariant counted == if cycles == [] then None else Some(Oldest(cycles))
    {
      var run := completed[i];
      var date := Date(run);
      var due := DayBefore(if counted.Some? then counted.value else today);
      WalkedHolds(runs, completed, i, today, cycles);
      if Some(date) != counted && date < due {
        var end := MissedEnd(runs, scheduled, due);
        MissedHolds(runs, completed, i, today, cycles, end);
        return Streak(cycles, Some(end));
      }
      if run.conclusion != Some("success") {
        var end := StreakEnd(date, Conclusion, Some(run.url));
        BrokenHolds(runs, completed, i, today, cycles, end);
        return Streak(cycles, Some(end));
      }
      if run.attempt != 1 {
        var end := StreakEnd(date, Rerun, Some(run.url));
        BrokenHolds(runs, completed, i, today, cycles, end);
        return Streak(cycles, Some(end));
      }
      WalksOne(completed, i, today, cycles);
      if Some(date) != counted {
        cycles := cycles + [CycleOf(run)];
        counted := Some(date);
      }
    }
    WalkedHolds(runs, completed, |completed|, today, cycles);
    AllCounted(runs, completed, today, cycles);
    if counted.Some? && exists r | r in scheduled :: Date(r) < counted.value {
      var end := MissedEnd(runs, scheduled, DayBefore(counted.value));
      LateHolds(runs, today, cycles, end);
      return Streak(cycles, Some(end));
    }
    NoEndHolds(runs, today, cycles);
    return Streak(cycles, None);
  }

  lemma NothingWalked(completed: seq<Run>, today: int)
    ensures Walked(completed, 0, today, [])
  {
  }

  lemma Rearranged(s: seq<Run>)
    ensures Sorted(Sort(s)) && forall r :: r in Sort(s) <==> r in s
  {
    SortSorts(s);
    forall r ensures r in Sort(s) <==> r in s {
      assert r in Sort(s) <==> r in multiset(Sort(s));
    }
  }

  lemma LateHolds(runs: seq<Run>, today: int, cycles: seq<Cycle>, end: StreakEnd)
    requires cycles != [] && Good(runs, Oldest(cycles)) && !On(runs, DayBefore(Oldest(cycles)))
    requires exists r :: r in runs && Scheduled(r) && Date(r) < Oldest(cycles)
    requires end.date == DayBefore(Oldest(cycles)) && end.kind == Missed && PendingOn(runs, end.date, end.runUrl)
    ensures EndHolds(runs, today, cycles, Some(end))
  {
    hide Good, On, PendingOn;
  }

  lemma NoEndHolds(runs: seq<Run>, today: int, cycles: seq<Cycle>)
    requires cycles == [] ==> forall r | r in runs :: !Completed(r)
    requires cycles != [] ==>
               Good(runs, Oldest(cycles)) && forall r | r in runs && Scheduled(r) :: Date(r) >= Oldest(cycles)
    ensures EndHolds(runs, today, cycles, None)
  {
    hide Good;
  }

  // -------------------------------------------- one streak for a set of runs

  predicate IdsDiffer(runs: seq<Run>) {
    forall a, b | a in runs && b in runs && a.id == b.id :: a == b
  }

  lemma OneCycle(runs: seq<Run>, c: Cycle, d: Cycle)
    requires IdsDiffer(runs) && Counted(runs, c) && Counted(runs, d) && c.date == d.date
    ensures c == d
  {
    var a :| NewestOf(runs, a, c.date) && Qualifies(a) && CycleOf(a) == c;
    var b :| NewestOf(runs, b, d.date) && Qualifies(b) && CycleOf(b) == d;
    assert !Newer(a, b) && !Newer(b, a);
  }

  lemma CountedIsOn(runs: seq<Run>, c: Cycle)
    requires Counted(runs, c)
    ensures On(runs, c.date)
  {
  }

  lemma SameCycle(runs: seq<Run>, today: int, c: seq<Cycle>, d: seq<Cycle>, k: nat)
    requires IdsDiffer(runs) && CyclesHold(runs, today, c) && CyclesHold(runs, today, d)
    requires k < |c| && k < |d|
    ensures c[k] == d[k]
  {
    hide Counted, Good;
    CountedIsOn(runs, c[0]);
    CountedIsOn(runs, d[0]);
    Descends(c, 0, k);
    Descends(d, 0, k);
    OneCycle(runs, c[k], d[k]);
  }

  /** A streak that another one extends has no reason to end. */
  lemma NoShorter(runs: seq<Run>, today: int, s: Streak, t: Streak)
    requires IdsDiffer(runs) && IsStreak(runs, today, s) && IsStreak(runs, today, t)
    ensures |s.cycles| >= |t.cycles|
  {
    hide Counted, Good, NewestOf;
    var c, d := s.cycles, t.cycles;
    if |c| < |d| {
      CountedIsOn(runs, d[|c|]);
      if c == [] {
        if s.end.Some? && s.end.value.kind != Missed {
          var r :| BrokenBy(runs, today, c, s.end.value, r);
          FirstQualifies(runs, d[0], r);
        }
      } else {
        var k := |c| - 1;
        SameCycle(runs, today, c, d, k);
        assert d[k + 1].date == DayBefore(d[k].date) && Good(runs, d[k].date);
        if s.end.Some? && s.end.value.kind != Missed {
          var r :| BrokenBy(runs, today, c, s.end.value, r);
          NextQualifies(runs, d[k].date, d[k + 1], r);
        }
      }
    }
  }

  lemma FirstQualifies(runs: seq<Run>, c: Cycle, r: Run)
    requires IdsDiffer(runs) && Counted(runs, c) && (forall q | q in runs && Completed(q) :: Date(q) <= c.date)
    requires r in runs && Completed(r) && forall q | q in runs && Completed(q) :: !Newer(q, r)
    ensures Qualifies(r)
  {
    var a :| NewestOf(runs, a, c.date) && Qualifies(a) && CycleOf(a) == c;
    DateOrder(r, a);
    assert !Newer(a, r) && !Newer(r, a);
  }

  lemma NextQualifies(runs: seq<Run>, date: int, below: Cycle, r: Run)
    requires IdsDiffer(runs) && Good(runs, date) && Counted(runs, below)
    requires r in runs && Completed(r)
    requires Date(r) == date || (Date(r) == below.date && NewestOf(runs, r, below.date))
    ensures Qualifies(r)
  {
    var a :| NewestOf(runs, a, below.date) && Qualifies(a) && CycleOf(a) == below;
    if Date(r) != date {
      assert !Newer(a, r) && !Newer(r, a);
    }
  }

  lemma OneEnd(runs: seq<Run>, today: int, cycles: seq<Cycle>, a: Option<StreakEnd>, b: Option<StreakEnd>)
    requires IdsDiffer(runs) && EndHolds(runs, today, cycles, a) && EndHolds(runs, today, cycles, b)
    requires a.Some? || b.None?
    ensures a == b
  {
    hide NewestOf, PendingOn;
    if a.Some? {
      var e := a.value;
      if e.kind == Missed {
        if b.Some? {
          var f := b.value;
          if f.kind == Missed {
            OnePending(runs, e.date, e.runUrl, f.runUrl);
          } else {
            assert false;
          }
        }
      } else {
        var r :| BrokenBy(runs, today, cycles, e, r);
        if b.Some? && b.value.kind != Missed {
          var q :| BrokenBy(runs, today, cycles, b.value, q);
          assert !Newer(q, r) && !Newer(r, q);
        }
      }
    }
  }

  lemma OnePending(runs: seq<Run>, date: int, a: Option<string>, b: Option<string>)
    requires IdsDiffer(runs) && PendingOn(runs, date, a) && PendingOn(runs, date, b)
    ensures a == b
  {
    if a.Some? && b.Some? {
      var p :| p in runs && Pending(p) && Date(p) == date && p.url == a.value
            && forall q | q in runs && Pending(q) && Date(q) == date :: !Newer(q, p);
      var r :| r in runs && Pending(r) && Date(r) == date && r.url == b.value
            && forall q | q in runs && Pending(q) && Date(q) == date :: !Newer(q, r);
      assert !Newer(p, r) && !Newer(r, p);
    }
  }

  /** The conditions leave no choice: a set of runs has one streak. */
  lemma OneStreak(runs: seq<Run>, today: int, s: Streak, t: Streak)
    requires IdsDiffer(runs) && IsStreak(runs, today, s) && IsStreak(runs, today, t)
    ensures s == t
  {
    NoShorter(runs, today, s, t);
    NoShorter(runs, today, t, s);
    hide CyclesHold, EndHolds;
    forall k | 0 <= k < |s.cycles| ensures s.cycles[k] == t.cycles[k] {
      SameCycle(runs, today, s.cycles, t.cycles, k);
    }
    assert s.cycles == t.cycles;
    if s.end.Some? || t.end.None? {
      OneEnd(runs, today, s.cycles, s.end, t.end);
    } else {
      OneEnd(runs, today, s.cycles, t.end, s.end);
    }
  }

  predicate SameRuns(a: seq<Run>, b: seq<Run>) {
    (forall r | r in a :: r in b) && (forall r | r in b :: r in a)
  }

  lemma NewestElsewhere(a: seq<Run>, b: seq<Run>, date: int)
    requires SameRuns(a, b)
    ensures forall r :: NewestOf(a, r, date) <==> NewestOf(b, r, date)
    ensures On(a, date) ==> On(b, date)
    ensures Good(a, date) ==> Good(b, date)
  {
  }

  lemma CyclesElsewhere(a: seq<Run>, b: seq<Run>, today: int, cycles: seq<Cycle>)
    requires SameRuns(a, b) && CyclesHold(a, today, cycles)
    ensures CyclesHold(b, today, cycles)
  {
    hide Good, NewestOf;
    forall k | 0 <= k < |cycles| ensures Counted(b, cycles[k]) && (k < |cycles| - 1 ==> Good(b, cycles[k].date)) {
      NewestElsewhere(a, b, cycles[k].date);
    }
  }

  lemma EndElsewhere(a: seq<Run>, b: seq<Run>, today: int, cycles: seq<Cycle>, end: Option<StreakEnd>)
    requires SameRuns(a, b) && EndHolds(a, today, cycles, end)
    ensures EndHolds(b, today, cycles, end)
  {
    hide Good, NewestOf, On;
    if cycles != [] {
      NewestElsewhere(a, b, Oldest(cycles));
    }
    if end.Some? {
      NewestElsewhere(a, b, end.value.date);
      NewestElsewhere(b, a, end.value.date);
      if end.value.kind != Missed {
        var r :| BrokenBy(a, today, cycles, end.value, r);
        assert BrokenBy(b, today, cycles, end.value, r);
      }
    }
  }

  /** Nor does the order in which the runs are listed matter. */
  lemma OneStreakInAnyOrder(a: seq<Run>, b: seq<Run>, today: int, s: Streak, t: Streak)
    requires IdsDiffer(a) && SameRuns(a, b)
    requires IsStreak(a, today, s) && IsStreak(b, today, t)
    ensures s == t
  {
    hide CyclesHold, EndHolds;
    CyclesElsewhere(b, a, today, t.cycles);
    EndElsewhere(b, a, today, t.cycles, t.end);
    OneStreak(a, today, s, t);
  }

  /** The newest completed run is recent enough, and no day from there back to `date` went without one. */
  ghost predicate Reached(runs: seq<Run>, today: int, date: int) {
    exists q :: ReachedFrom(runs, today, date, q)
  }

  predicate ReachedFrom(runs: seq<Run>, today: int, date: int, q: Run) {
    && q in runs && Completed(q) && Date(q) >= DayBefore(today)
    && (forall r | r in runs && Completed(r) :: Date(r) <= Date(q))
    && forall d | date <= d <= Date(q) :: On(runs, d)
  }

  lemma OneBreak(runs: seq<Run>, q: Run, r: Run)
    requires IdsDiffer(runs) && Breaks(runs, q) && Breaks(runs, r)
    ensures q == r
  {
    assert !Newer(q, r) && !Newer(r, q);
  }

  lemma OneNewest(runs: seq<Run>, q: Run, r: Run, date: int)
    requires IdsDiffer(runs) && NewestOf(runs, q, date) && NewestOf(runs, r, date)
    ensures q == r
  {
    assert !Newer(q, r) && !Newer(r, q);
  }

  lemma FailureCounted(runs: seq<Run>, today: int, s: Streak, r: Run)
    requires IdsDiffer(runs) && IsStreak(runs, today, s)
    requires Breaks(runs, r) && !NewestOf(runs, r, Date(r)) && Reached(runs, today, Date(r))
    ensures s.cycles != [] && Oldest(s.cycles) == Date(r)
  {
    hide Counted, NewestOf, PendingOn;
    var q :| ReachedFrom(runs, today, Date(r), q);
    var c := s.cycles;
    if s.end.Some? && s.end.value.kind != Missed {
      var t :| BrokenBy(runs, today, c, s.end.value, t);
      OneBreak(runs, t, r);
      if c == [] {
        NewestOfAll(runs, r);
      }
    }
    assert c != [];
    CountedIsOn(runs, c[0]);
    assert c[0].date == Date(q);
    Descends(c, 0, |c| - 1);
    if Oldest(c) > Date(r) {
      assert false;
    } else if Oldest(c) < Date(r) {
      var k := c[0].date - Date(r);
      Descends(c, 0, k);
      assert false;
    }
  }

  lemma NewestOfAll(runs: seq<Run>, r: Run)
    requires r in runs && Completed(r) && forall q | q in runs && Completed(q) :: !Newer(q, r)
    ensures NewestOf(runs, r, Date(r))
  {
  }

  lemma CountedFailure(runs: seq<Run>, today: int, s: Streak) returns (r: Run)
    requires IdsDiffer(runs) && IsStreak(runs, today, s) && s.cycles != [] && !Good(runs, Oldest(s.cycles))
    ensures Breaks(runs, r) && !NewestOf(runs, r, Date(r)) && Reached(runs, today, Date(r))
  {
    hide PendingOn, On, Good, NewestOf, Breaks;
    var c := s.cycles;
    r :| BrokenBy(runs, today, c, s.end.value, r);
    NewestQualifies(runs, c[|c| - 1], r);
    var q :| NewestOf(runs, q, c[0].date) && Qualifies(q) && CycleOf(q) == c[0];
    NewestIs(runs, q, c[0].date);
    forall d | Date(r) <= d <= Date(q) ensures On(runs, d) {
      Descends(c, 0, |c| - 1);
      Descends(c, 0, Date(q) - d);
      CountedIsOn(runs, c[Date(q) - d]);
    }
    assert ReachedFrom(runs, today, Date(r), q);
  }

  lemma NewestIs(runs: seq<Run>, q: Run, date: int)
    requires NewestOf(runs, q, date)
    ensures q in runs && Completed(q) && Date(q) == date
  {
  }

  lemma NewestQualifies(runs: seq<Run>, c: Cycle, r: Run)
    requires IdsDiffer(runs) && Counted(runs, c) && Breaks(runs, r)
    ensures !NewestOf(runs, r, c.date)
  {
    var q :| NewestOf(runs, q, c.date) && Qualifies(q) && CycleOf(q) == c;
    if NewestOf(runs, r, c.date) {
      OneNewest(runs, q, r, c.date);
    }
  }

  /**
   * A counted day holds a run that does not qualify exactly when the newest
   * such run is followed, on its own day, by one that does, and its day is
   * within the reach of the streak. It is then the oldest counted day.
   */
  lemma OldestDay(runs: seq<Run>, today: int, s: Streak)
    requires IdsDiffer(runs) && IsStreak(runs, today, s)
    ensures (exists i | 0 <= i < |s.cycles| :: !Good(runs, s.cycles[i].date))
       <==> exists r :: Breaks(runs, r) && !NewestOf(runs, r, Date(r)) && Reached(runs, today, Date(r))
  {
    hide EndHolds, Breaks, Reached, Good, NewestOf;
    if i :| 0 <= i < |s.cycles| && !Good(runs, s.cycles[i].date) {
      var r := CountedFailure(runs, today, s);
    }
    if r :| Breaks(runs, r) && !NewestOf(runs, r, Date(r)) && Reached(runs, today, Date(r)) {
      FailureCounted(runs, today, s, r);
      BreaksIsBad(runs, r);
      assert !Good(runs, s.cycles[|s.cycles| - 1].date);
    }
  }

  lemma BreaksIsBad(runs: seq<Run>, r: Run)
    requires Breaks(runs, r)
    ensures !Good(runs, Date(r))
  {
  }

  /** Such a day: its second run succeeded, and its first one had failed. */
  lemma CountedDayWithAFailure()
    ensures
      var passed := Run(2, 1, "schedule", "completed", Some("success"), "b", 9, "u2");
      var failed := Run(1, 1, "schedule", "completed", Some("failure"), "a", 8, "u1");
      var s := Streak([CycleOf(passed)], Some(StreakEnd(0, Conclusion, Some("u1"))));
      IsStreak([failed, passed], 0, s) && !Good([failed, passed], 0)
  {
    var passed := Run(2, 1, "schedule", "completed", Some("success"), "b", 9, "u2");
    var failed := Run(1, 1, "schedule", "completed", Some("failure"), "a", 8, "u1");
    var runs := [failed, passed];
    var e := StreakEnd(0, Conclusion, Some("u1"));
    var s := Streak([CycleOf(passed)], Some(e));
    assert passed in runs && failed in runs;
    assert NewestOf(runs, passed, 0) && Qualifies(passed);
    assert Counted(runs, s.cycles[0]);
    assert BrokenBy(runs, 0, s.cycles, e, failed);
  }

  /** The newest cycle is of today or yesterday, unless a completed run is dated in the future. */
  lemma NewestCycle(runs: seq<Run>, today: int, s: Streak)
    requires IsStreak(runs, today, s) && s.cycles != []
    ensures DayBefore(today) <= s.cycles[0].date <= today
            <==> forall r | r in runs && Completed(r) :: Date(r) <= today
  {
    CountedIsOn(runs, s.cycles[0]);
  }

  /** Such a run: its day is three days after today, and it is the newest cycle. */
  lemma CycleAfterToday()
    ensures
      var r := Run(1, 1, "schedule", "completed", Some("success"), "a", 3 * DAY, "u");
      IsStreak([r], 0, Streak([CycleOf(r)], None)) && CycleOf(r).date == 3
  {
    var r := Run(1, 1, "schedule", "completed", Some("success"), "a", 3 * DAY, "u");
    assert r in [r] && NewestOf([r], r, Date(r)) && Qualifies(r);
    assert Counted([r], CycleOf(r));
  }

  /** The run that a counted day stands for, in its own fields. */
  lemma CycleNames(runs: seq<Run>, today: int, s: Streak, i: nat)
    requires IsStreak(runs, today, s) && i < |s.cycles|
    ensures exists r | r in runs ::
              && r.event == "schedule" && r.status == "completed"
              && r.conclusion == Some("success") && r.attempt == 1
              && CycleTells(s.cycles[i], r)
              && forall q | q in runs && q.event == "schedule" && q.status == "completed" && Date(q) == Date(r) ::
                   q.created < r.created || (q.created == r.created && q.id <= r.id)
  {
    hide Good, EndHolds;
    var r :| NewestOf(runs, r, s.cycles[i].date) && Qualifies(r) && CycleOf(r) == s.cycles[i];
    assert r in runs && CycleTells(s.cycles[i], r);
  }

  predicate CycleTells(c: Cycle, r: Run) {
    && c.runId == r.id && c.runAttempt == r.attempt && c.runUrl == r.url && c.headSha == r.headSha
    && c.date * 24 * 3600 <= r.created < (c.date + 1) * 24 * 3600
  }

  /** The run that a missed day names was scheduled then and has not completed, nor has any other of that day. */
  lemma MissedNames(runs: seq<Run>, today: int, s: Streak)
    requires IsStreak(runs, today, s) && s.end.Some? && s.end.value.kind == Missed
    ensures forall r | r in runs && Date(r) == s.end.value.date && r.event == "schedule" :: r.status != "completed"
    ensures match s.end.value.runUrl
            case None => forall r | r in runs && r.event == "schedule" :: Date(r) != s.end.value.date
            case Some(url) => exists r | r in runs ::
                                r.url == url && r.event == "schedule" && Date(r) == s.end.value.date
  {
    hide Good, CyclesHold;
    assert forall r | r in runs && Completed(r) :: On(runs, Date(r));
  }

  // ------------------------------------------------------------- the ledger

  datatype Status = NoScheduledRuns | Measured

  datatype Ledger = Ledger(
    repository: string, required: nat, status: Status, statusDetail: Option<string>,
    current: nat, first: Option<int>, last: Option<int>,
    cycles: seq<Cycle>, end: Option<StreakEnd>, supersedes: string)

  datatype Problem =
    | WrongCount | WrongFirst | WrongLast
    | CycleUrl(index: nat) | CycleAttempt(index: nat) | CycleDate(index: nat)
    | EndUrl | EndDate
    | RunsRecorded | NoDetail | Detail | NothingMeasured | SupersedesItself

  function Digits(n: nat): string {
    (if n < 10 then "" else Digits(n / 10)) + ["0123456789"[n % 10]]
  }

  function RunsOf(repository: string): string {
    "https://github.com/" + repository + "/actions/runs/"
  }

  function RunUrl(repository: string, id: nat): string {
    RunsOf(repository) + Digits(id)
  }

  function FirstDate(cycles: seq<Cycle>): Option<int> {
    if cycles == [] then None else Some(cycles[|cycles| - 1].date)
  }

  function LastDate(cycles: seq<Cycle>): Option<int> {
    if cycles == [] then None else Some(cycles[0].date)
  }

  /** What each problem says of a ledger. */
  predicate Has(l: Ledger, p: Problem) {
    match p
    case WrongCount => l.current != |l.cycles|
    case WrongFirst => l.first != FirstDate(l.cycles)
    case WrongLast => l.last != LastDate(l.cycles)
    case CycleUrl(i) => i < |l.cycles| && l.cycles[i].runUrl != RunUrl(l.repository, l.cycles[i].runId)
    case CycleAttempt(i) => i < |l.cycles| && l.cycles[i].runAttempt != 1
    case CycleDate(i) => 0 < i < |l.cycles| && l.cycles[i].date != DayBefore(l.cycles[i - 1].date)
    case EndUrl => l.end.Some? && l.end.value.runUrl.Some? && !(RunsOf(l.repository) <= l.end.value.runUrl.value)
    case EndDate =>
      && l.end.Some? && l.cycles != []
      && l.end.value.date !in [Oldest(l.cycles), DayBefore(Oldest(l.cycles))]
    case RunsRecorded => l.status == NoScheduledRuns && (l.cycles != [] || l.end.Some?)
    case NoDetail => l.status == NoScheduledRuns && l.statusDetail.None?
    case Detail => l.status == Measured && l.statusDetail.Some?
    case NothingMeasured => l.status == Measured && l.cycles == [] && l.end.None?
    case SupersedesItself => l.supersedes == LEDGER_NAME
  }

  predicate OfCycle(p: Problem) {
    p.CycleUrl? || p.CycleAttempt? || p.CycleDate?
  }

  predicate OfCount(p: Problem) {
    p.WrongCount? || p.WrongFirst? || p.WrongLast?
  }

  method CountProblems(l: Ledger) returns (problems: seq<Problem>)
    ensures forall p :: p in problems <==> OfCount(p) && Has(l, p)
  {
    problems := [];
    if l.current != |l.cycles| {
      problems := problems + [WrongCount];
    }
    if l.first != FirstDate(l.cycles) {
      problems := problems + [WrongFirst];
    }
    if l.last != LastDate(l.cycles) {
      problems := problems + [WrongLast];
    }
  }

  method CycleProblems(l: Ledger) returns (problems: seq<Problem>)
    ensures forall p :: p in problems <==> OfCycle(p) && Has(l, p)
  {
    problems := [];
    for i := 0 to |l.cycles|
      invariant forall p :: p in problems <==> OfCycle(p) && p.index < i && Has(l, p)
    {
      var cycle := l.cycles[i];
      if cycle.runUrl != RunsOf(l.repository) + Digits(cycle.runId) {
        problems := problems + [CycleUrl(i)];
      }
      if cycle.runAttempt != 1 {
        problems := problems + [CycleAttempt(i)];
      }
      if i > 0 && cycle.date != DayBefore(l.cycles[i - 1].date) {
        problems := problems + [CycleDate(i)];
      }
    }
  }

  method EndProblems(l: Ledger) returns (problems: seq<Problem>)
    ensures forall p :: p in problems <==> !OfCount(p) && !OfCycle(p) && Has(l, p)
  {
    problems := [];
    if l.end.Some? {
      var end := l.end.value;
      if end.runUrl.Some? && !(RunsOf(l.repository) <= end.runUrl.value) {
        problems := problems + [EndUrl];
      }
      if l.cycles != [] && end.date != Oldest(l.cycles) && end.date != DayBefore(Oldest(l.cycles)) {
        problems := problems + [EndDate];
      }
    }
    if l.status == NoScheduledRuns {
      if |l.cycles| > 0 || l.end.Some? {
        problems := problems + [RunsRecorded];
      }
      if l.statusDetail.None? {
        problems := problems + [NoDetail];
      }
    } else {
      if l.statusDetail.Some? {
        problems := problems + [Detail];
      }
      if |l.cycles| == 0 && l.end.None? {
        problems := problems + [NothingMeasured];
      }
    }
    if l.supersedes == LEDGER_NAME {
      problems := problems + [SupersedesItself];
    }
  }

  /** ledgerProblems: a problem is listed exactly if the ledger has it. */
  method LedgerProblems(l: Ledger) returns (problems: seq<Problem>)
    ensures forall p :: p in problems <==> Has(l, p)
    ensures problems == [] <==> Consistent(l)
  {
    hide Has, Consistent;
    var counts := CountProblems(l);
    var cycles := CycleProblems(l);
    var ends := EndProblems(l);
    problems := counts + cycles + ends;
    ProblemsAreAll(l);
    if problems != [] {
      assert problems[0] in problems;
    } else {
      assert forall p :: p !in problems;
    }
  }

  /** The ledger that the script assembles from a streak. */
  function Assembled(runs: seq<Run>, s: Streak, repository: string, required: nat, detail: string, supersedes: string)
    : Ledger
  {
    var none := Filter(runs, Completed) == [];
    Ledger(
      repository, required, if none then NoScheduledRuns else Measured, if none then Some(detail) else None,
      |s.cycles|, FirstDate(s.cycles), LastDate(s.cycles), s.cycles, s.end, supersedes)
  }

  /** The counters of a ledger say what its cycles do: newest first, one a day, from `first` to `last`. */
  predicate Summarized(l: Ledger) {
    && l.current == |l.cycles|
    && (l.first.None? <==> l.cycles == []) && (l.last.None? <==> l.cycles == [])
    && (l.cycles != [] ==>
          && l.last.value - l.first.value == l.current - 1
          && forall i | 0 <= i < |l.cycles| :: l.cycles[i].date == l.last.value - i == l.first.value + l.current - 1 - i)
  }

  lemma DaysCount(cycles: seq<Cycle>)
    requires forall i | 0 < i < |cycles| :: cycles[i].date == DayBefore(cycles[i - 1].date)
    ensures forall i | 0 <= i < |cycles| :: cycles[i].date == cycles[0].date - i
  {
    var i := 0;
    while i < |cycles|
      invariant i <= |cycles|
      invariant forall k | 0 <= k < i :: cycles[k].date == cycles[0].date - k
    {
      if i > 0 {
        assert cycles[i].date == DayBefore(cycles[i - 1].date);
      }
      i := i + 1;
    }
  }

  lemma StreakCounts(runs: seq<Run>, today: int, s: Streak)
    requires IsStreak(runs, today, s)
    ensures forall i | 0 <= i < |s.cycles| :: s.cycles[i].date == s.cycles[0].date - i
  {
    hide Counted, Good, EndHolds;
    DaysCount(s.cycles);
  }

  lemma StatusTells(runs: seq<Run>)
    ensures Filter(runs, Completed) == [] <==> forall r | r in runs :: !Completed(r)
  {
    if Filter(runs, Completed) != [] {
      assert Filter(runs, Completed)[0] in runs;
    } else {
      forall r | r in runs ensures !Completed(r) {
        assert r !in Filter(runs, Completed);
      }
    }
  }

  /** A day has 24 hours of 3600 seconds, and the day before ends where it begins. */
  lemma DaysAre(r: Run, date: int)
    ensures Date(r) == date <==> date * 24 * 3600 <= r.created < (date + 1) * 24 * 3600
    ensures Date(r) == DayBefore(date) <==> Date(r.(created := r.created + 24 * 3600)) == date
  {
  }

  /** The number that digits spell. */
  function Spelled(s: string): nat {
    if s == [] then 0
    else
      var c := s[|s| - 1];
      10 * Spelled(s[..|s| - 1]) + if '0' <= c <= '9' then c as int - '0' as int else 0
  }

  /** A run's URL ends with its number: no two numbers have the same digits. */
  lemma {:induction false} DigitsSpell(n: nat)
    ensures Digits(n) != "" && Spelled(Digits(n)) == n
    ensures forall c <- Digits(n) :: '0' <= c <= '9'
    ensures n > 0 ==> Digits(n)[0] != '0'
  {
    var c := "0123456789"[n % 10];
    assert c as int == '0' as int + n % 10;
    if n < 10 {
      assert Digits(n) == [c];
      assert Digits(n)[..0] == "" && Spelled("") == 0;
    } else {
      DigitsSpell(n / 10);
      assert Digits(n)[..|Digits(n)| - 1] == Digits(n / 10);
    }
  }

  lemma UrlsName(repository: string, a: nat, b: nat)
    ensures RunUrl(repository, a) == RunUrl(repository, b) ==> a == b
    ensures RunUrl(repository, 7) == "https://github.com/" + repository + "/actions/runs/" + "7"
  {
    DigitsSpell(a);
    DigitsSpell(b);
    var n := |RunsOf(repository)|;
    assert RunUrl(repository, a)[n..] == Digits(a) && RunUrl(repository, b)[n..] == Digits(b);
    assert Digits(7) == "7";
  }

  /**
   * A consistent ledger: first attempts of its own repository on consecutive
   * days, an end on the first of them or the day before, and a matching status.
   */
  predicate Consistent(l: Ledger) {
    && Summarized(l)
    && (forall i | 0 <= i < |l.cycles| ::
          l.cycles[i].runAttempt == 1 && l.cycles[i].runUrl == RunUrl(l.repository, l.cycles[i].runId))
    && (l.end.Some? && l.end.value.runUrl.Some? ==> RunsOf(l.repository) <= l.end.value.runUrl.value)
    && (l.end.Some? && l.first.Some? ==> l.first.value - 1 <= l.end.value.date <= l.first.value)
    && (match l.status
        case NoScheduledRuns => l.cycles == [] && l.end.None? && l.statusDetail.Some?
        case Measured => (l.cycles != [] || l.end.Some?) && l.statusDetail.None?)
    && l.supersedes != "nightly-confidence.json"
  }

  lemma NoneIsSummarized(l: Ledger)
    requires forall p :: !Has(l, p)
    ensures Summarized(l)
  {
    assert !Has(l, WrongCount) && !Has(l, WrongFirst) && !Has(l, WrongLast);
    forall i | 0 < i < |l.cycles| ensures l.cycles[i].date == DayBefore(l.cycles[i - 1].date) {
      assert !Has(l, CycleDate(i));
    }
    hide Has;
    DaysCount(l.cycles);
  }

  lemma NoneInCycle(l: Ledger, i: nat)
    requires i < |l.cycles| && forall p :: !Has(l, p)
    ensures l.cycles[i].runAttempt == 1 && l.cycles[i].runUrl == RunUrl(l.repository, l.cycles[i].runId)
  {
    hide RunUrl;
    assert !Has(l, CycleUrl(i)) && !Has(l, CycleAttempt(i));
  }

  lemma NoneIsConsistent(l: Ledger)
    requires forall p :: !Has(l, p)
    ensures Consistent(l)
  {
    hide RunUrl, RunsOf, Summarized;
    NoneIsSummarized(l);
    forall i | 0 <= i < |l.cycles|
      ensures l.cycles[i].runAttempt == 1 && l.cycles[i].runUrl == RunUrl(l.repository, l.cycles[i].runId) {
      NoneInCycle(l, i);
    }
    assert !Has(l, WrongFirst) && !Has(l, EndUrl) && !Has(l, EndDate) && !Has(l, SupersedesItself);
    assert !Has(l, RunsRecorded) && !Has(l, NoDetail) && !Has(l, Detail) && !Has(l, NothingMeasured);
  }

  lemma ConsistentHasNone(l: Ledger, p: Problem)
    requires Consistent(l)
    ensures !Has(l, p)
  {
    hide RunUrl, RunsOf;
  }

  /** No problem means consistent, and consistent means no problem. */
  lemma ProblemsAreAll(l: Ledger)
    ensures (forall p :: !Has(l, p)) <==> Consistent(l)
  {
    hide Has, Consistent;
    if Consistent(l) {
      forall p ensures !Has(l, p) {
        ConsistentHasNone(l, p);
      }
    } else if forall p :: !Has(l, p) {
      NoneIsConsistent(l);
    }
  }

  /** The run URLs of a streak are of the repository. */
  predicate UrlsOf(s: Streak, repository: string) {
    && (forall i | 0 <= i < |s.cycles| :: s.cycles[i].runUrl == RunUrl(repository, s.cycles[i].runId))
    && (s.end.Some? && s.end.value.runUrl.Some? ==> RunsOf(repository) <= s.end.value.runUrl.value)
  }

  lemma AssembledHas(runs: seq<Run>, today: int, s: Streak, repository: string, required: nat, detail: string, supersedes: string, p: Problem)
    requires IsStreak(runs, today, s)
    requires Has(Assembled(runs, s, repository, required, detail, supersedes), p)
    ensures p == SupersedesItself || p == EndUrl || p.CycleUrl?
  {
    hide Good, NewestOf, On, PendingOn;
    if p.CycleAttempt? {
      assert Counted(runs, s.cycles[p.index]);
    }
    if p == RunsRecorded {
      HasCompleted(runs, today, s);
    }
    if Filter(runs, Completed) != [] {
      assert Filter(runs, Completed)[0] in runs;
    }
  }

  lemma HasCompleted(runs: seq<Run>, today: int, s: Streak)
    requires IsStreak(runs, today, s) && (s.cycles != [] || s.end.Some?)
    ensures Filter(runs, Completed) != []
  {
    if s.cycles != [] {
      CountedIsOn(runs, s.cycles[0]);
    }
    var r :| r in runs && Completed(r);
    assert r in Filter(runs, Completed);
  }

  /**
   * The script's own check of the ledger it computed: it passes exactly if the
   * run URLs are of the repository and the ledger does not supersede itself.
   */
  method Audit(runs: seq<Run>, today: int, repository: string, required: nat, detail: string, supersedes: string)
    returns (ledger: Ledger, problems: seq<Problem>)
    ensures exists s ::
              && IsStreak(runs, today, s)
              && ledger == Assembled(runs, s, repository, required, detail, supersedes)
              && (problems == [] <==> UrlsOf(s, repository) && supersedes != LEDGER_NAME)
    ensures supersedes != LEDGER_NAME && (forall r | r in runs :: r.url == RunUrl(repository, r.id)) ==> problems == []
    ensures Summarized(ledger)
    ensures ledger.status == Measured <==> exists r :: r in runs && Completed(r)
    ensures ledger.statusDetail == if ledger.status == Measured then None else Some(detail)
  {
    hide IsStreak;
    var s := ComputeStreak(runs, today);
    ledger := Assembled(runs, s, repository, required, detail, supersedes);
    StreakCounts(runs, today, s);
    StatusTells(runs);
    problems := LedgerProblems(ledger);
    AuditPasses(runs, today, s, repository, required, detail, supersedes, problems);
  }

  lemma AuditPasses(runs: seq<Run>, today: int, s: Streak, repository: string, required: nat, detail: string, supersedes: string, problems: seq<Problem>)
    requires IsStreak(runs, today, s)
    requires forall p :: p in problems <==> Has(Assembled(runs, s, repository, required, detail, supersedes), p)
    ensures problems == [] <==> UrlsOf(s, repository) && supersedes != LEDGER_NAME
    ensures (forall r | r in runs :: r.url == RunUrl(repository, r.id)) ==> UrlsOf(s, repository)
  {
    hide IsStreak;
    if problems != [] {
      var p := problems[0];
      AssembledHas(runs, today, s, repository, required, detail, supersedes, p);
    } else {
      assert SupersedesItself !in problems && EndUrl !in problems;
      forall i | 0 <= i < |s.cycles| ensures s.cycles[i].runUrl == RunUrl(repository, s.cycles[i].runId) {
        assert CycleUrl(i) !in problems;
      }
    }
    if forall r | r in runs :: r.url == RunUrl(repository, r.id) {
      UrlsFollow(runs, today, s, repository);
    }
  }

  lemma UrlsFollow(runs: seq<Run>, today: int, s: Streak, repository: string)
    requires IsStreak(runs, today, s) && forall r | r in runs :: r.url == RunUrl(repository, r.id)
    ensures UrlsOf(s, repository)
  {
    forall i | 0 <= i < |s.cycles| ensures s.cycles[i].runUrl == RunUrl(repository, s.cycles[i].runId) {
      assert Counted(runs, s.cycles[i]);
    }
  }
}
