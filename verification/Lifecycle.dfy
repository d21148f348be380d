/**
 * The Go Compiler's job lifecycle: begin, done, Close and closeRuntimes as
 * the atomic steps between which any goroutine may run. A mutex section, a
 * channel operation and the entry and exit of sync.Once are one step each.
 */
module Lifecycle {
  import opened Prelude

  /** A call between `begin` and the end of its `done`. */
  datatype Phase =
    | Waiting // registered, not admitted
    | Active(slot: bool) // holds a slot, or jobs are unbounded
    | Leaving(slot: bool) // in done, before it frees its slot, or after
    | Gone

  /** A goroutine in Close, or the one that the last job starts. */
  datatype Closer =
    | Marked // past the mutex section, at the first select
    | Blocked // at the second select
    | Releasing // calls closeRuntimes
    | Returned

  datatype Once = NotStarted | InProgress(owner: nat) | Finished

  /** `idle` counts the calls of close(c.idle): a second one would panic. */
  datatype State = State(
    closed: bool,
    idle: nat,
    capacity: Option<nat>,
    slots: nat,
    jobs: set<nat>,
    phases: map<nat, Phase>,
    cancelled: set<nat>,
    closers: map<nat, Closer>,
    release: Once,
    releases: nat)

  datatype Event =
    | EvBegin(j: nat)
    | EvAdmit(j: nat) // c.slots <- struct{}{}
    | EvGiveUp(j: nat) // its context ends while it waits
    | EvFinish(j: nat) // the deferred done starts
    | EvFree(j: nat) // <-c.slots
    | EvLeave(j: nat, helper: nat) // the mutex section of done
    | EvClose(k: nat)
    | EvFirstSelect(k: nat)
    | EvIdle(k: nat)
    | EvDeadline(k: nat)
    | EvEnterOnce(k: nat)
    | EvExitOnce(k: nat)

  function Initial(capacity: Option<nat>): State {
    State(false, 0, capacity, 0, {}, map[], {}, map[], NotStarted, 0)
  }

  predicate At(s: State, j: nat, p: Phase) {
    j in s.phases && s.phases[j] == p
  }

  predicate CloserAt(s: State, k: nat, c: Closer) {
    k in s.closers && s.closers[k] == c
  }

  function To(s: State, j: nat, p: Phase): State {
    s.(phases := s.phases[j := p])
  }

  function CloserTo(s: State, k: nat, c: Closer): State {
    s.(closers := s.closers[k := c])
  }

  /** Every new call gets a number that was never used. */
  function Step(s: State, e: Event): State {
    match e
    case EvBegin(j) =>
      if j in s.phases || s.closed then s
      else To(s.(jobs := s.jobs + {j}), j, if s.capacity.Some? then Waiting else Active(false))
    case EvAdmit(j) =>
      if At(s, j, Waiting) && s.capacity.Some? && s.slots < s.capacity.value
      then To(s.(slots := s.slots + 1), j, Active(true)) else s
    case EvGiveUp(j) => if At(s, j, Waiting) then To(s, j, Leaving(false)) else s
    case EvFinish(j) =>
      if At(s, j, Active(true)) then To(s, j, Leaving(true))
      else if At(s, j, Active(false)) then To(s, j, Leaving(false)) else s
    case EvFree(j) =>
      if At(s, j, Leaving(true)) && s.slots > 0 then To(s.(slots := s.slots - 1), j, Leaving(false)) else s
    case EvLeave(j, helper) =>
      if At(s, j, Leaving(false)) && helper !in s.closers then
        var s1 := To(s.(jobs := s.jobs - {j}), j, Gone);
        if s1.closed && s1.jobs == {} then CloserTo(s1.(idle := s1.idle + 1), helper, Releasing) else s1
      else s
    case EvClose(k) =>
      if k in s.closers then s
      else CloserTo(s.(closed := true, idle := if !s.closed && s.jobs == {} then s.idle + 1 else s.idle), k, Marked)
    case EvFirstSelect(k) =>
      if CloserAt(s, k, Marked) then CloserTo(s, k, if s.idle > 0 then Releasing else Blocked) else s
    case EvIdle(k) => if CloserAt(s, k, Blocked) && s.idle > 0 then CloserTo(s, k, Releasing) else s
    case EvDeadline(k) =>
      if CloserAt(s, k, Blocked) then CloserTo(s.(cancelled := s.cancelled + s.jobs), k, Returned) else s
    case EvEnterOnce(k) =>
      if CloserAt(s, k, Releasing) && s.release.NotStarted? then s.(release := InProgress(k), releases := s.releases + 1)
      else if CloserAt(s, k, Releasing) && s.release.Finished? then CloserTo(s, k, Returned)
      else s
    case EvExitOnce(k) => if s.release == InProgress(k) then CloserTo(s.(release := Finished), k, Returned) else s
  }

  function Run(s: State, events: seq<Event>): State
    decreases |events|
  {
    if events == [] then s else Run(Step(s, events[0]), events[1..])
  }

  /** A run goes on from where the run before its last event led. */
  lemma {:induction false} RunSnoc(s: State, events: seq<Event>, e: Event)
    ensures Run(s, events + [e]) == Step(Run(s, events), e)
    decreases |events|
  {
    hide Step;
    if events == [] {
      assert Run(Step(s, e), []) == Step(s, e) && ([] + [e])[1..] == [];
    } else {
      assert (events + [e])[1..] == events[1..] + [e];
      RunSnoc(Step(s, events[0]), events[1..], e);
    }
  }

  // -------------------------------------------------------------- invariant

  /** The calls that hold a slot. */
  function Holders(s: State): set<nat> {
    set j | j in s.phases && (s.phases[j] == Active(true) || s.phases[j] == Leaving(true))
  }

  predicate Slots(s: State) {
    && s.slots == |Holders(s)|
    && (s.capacity.Some? ==> s.slots <= s.capacity.value)
    && (s.capacity.None? ==> s.slots == 0)
    && (forall j <- s.phases :: s.phases[j] == Waiting ==> s.capacity.Some?)
  }

  predicate Registered(s: State) {
    && (forall j <- s.jobs :: j in s.phases)
    && (forall j <- s.phases :: j in s.jobs <==> s.phases[j] != Gone)
  }

  predicate Idle(s: State) {
    && s.idle == (if s.closed && s.jobs == {} then 1 else 0)
    && (forall k <- s.closers :: s.closed)
  }

  predicate Released(s: State) {
    && s.releases == (if s.release.NotStarted? then 0 else 1)
    && (!s.release.NotStarted? ==> s.idle == 1)
    && (forall k <- s.closers :: s.closers[k] == Releasing ==> s.idle == 1)
    && (s.release.InProgress? ==> CloserAt(s, s.release.owner, Releasing))
  }

  /** Once idle, and until the release starts, somebody is about to start it. */
  ghost predicate Claimed(s: State) {
    s.idle == 1 && s.release.NotStarted? ==> exists k :: k in s.closers && (s.closers[k] == Releasing || s.closers[k] == Marked)
  }

  ghost predicate Inv(s: State) {
    Slots(s) && Registered(s) && Idle(s) && Released(s) && Claimed(s)
  }

  lemma InitialInv(capacity: Option<nat>)
    ensures Inv(Initial(capacity))
  {
    assert Holders(Initial(capacity)) == {};
  }

  predicate Holding(p: Phase) {
    p == Active(true) || p == Leaving(true)
  }

  predicate Holds(s: State, j: nat) {
    j in s.phases && Holding(s.phases[j])
  }

  /** A call takes or frees a slot exactly when it becomes or ceases to be a holder. */
  lemma SlotsTo(s: State, s': State, j: nat, p: Phase)
    requires Slots(s)
    requires s'.phases == s.phases[j := p] && s'.capacity == s.capacity
    requires s'.slots == s.slots + (if Holding(p) then 1 else 0) - (if Holds(s, j) then 1 else 0)
    requires s'.capacity.Some? ==> s'.slots <= s'.capacity.value
    requires s'.capacity.None? ==> p != Waiting && s'.slots == s.slots
    ensures Slots(s')
  {
    assert Holders(s') == if Holding(p) then Holders(s) + {j} else Holders(s) - {j};
    assert j in Holders(s) <==> Holds(s, j);
    hide Holders;
  }

  lemma SlotsStep(s: State, e: Event)
    requires Slots(s)
    ensures Slots(Step(s, e))
  {
    var s' := Step(s, e);
    if e.EvBegin? || e.EvAdmit? || e.EvGiveUp? || e.EvFinish? || e.EvFree? || e.EvLeave? {
      if s' != s {
        JobStep(s, e);
        SlotsTo(s, s', e.j, s'.phases[e.j]);
      }
    } else {
      assert s'.phases == s.phases && s'.slots == s.slots && s'.capacity == s.capacity;
      assert Holders(s') == Holders(s);
    }
  }

  /** Without a bound nobody holds a slot. */
  lemma NoHolder(s: State, j: nat)
    requires Slots(s) && s.capacity.None?
    ensures !Holds(s, j)
  {
    assert Holders(s) == {};
    assert Holds(s, j) ==> j in Holders(s);
  }

  lemma JobStep(s: State, e: Event)
    requires Slots(s)
    requires e.EvBegin? || e.EvAdmit? || e.EvGiveUp? || e.EvFinish? || e.EvFree? || e.EvLeave?
    requires Step(s, e) != s
    ensures
      var s' := Step(s, e);
      && e.j in s'.phases
      && var p := s'.phases[e.j];
         && s'.phases == s.phases[e.j := p] && s'.capacity == s.capacity
         && s'.slots == s.slots + (if Holding(p) then 1 else 0) - (if Holds(s, e.j) then 1 else 0)
         && (s'.capacity.Some? ==> s'.slots <= s'.capacity.value)
         && (s'.capacity.None? ==> p != Waiting && s'.slots == s.slots)
  {
    if s.capacity.None? {
      NoHolder(s, e.j);
    }
    hide Holders;
  }

  lemma ClaimedStep(s: State, e: Event)
    requires Idle(s) && Released(s) && Claimed(s)
    ensures Claimed(Step(s, e))
  {
    var s' := Step(s, e);
    if s'.idle == 1 && s'.release.NotStarted? {
      if s.idle == 1 {
        var k :| k in s.closers && (s.closers[k] == Releasing || s.closers[k] == Marked);
        assert k in s'.closers && (s'.closers[k] == Releasing || s'.closers[k] == Marked);
      } else if e.EvClose? {
        assert s'.closers[e.k] == Marked;
      } else if e.EvLeave? {
        assert s'.closers[e.helper] == Releasing;
      }
    }
  }

  lemma RegisteredStep(s: State, e: Event)
    requires Registered(s)
    ensures Registered(Step(s, e))
  {
  }

  lemma IdleStep(s: State, e: Event)
    requires Registered(s) && Idle(s) && Released(s)
    ensures Idle(Step(s, e)) && Step(s, e).idle >= s.idle
  {
  }

  lemma ReleasedStep(s: State, e: Event)
    requires Idle(s) && Idle(Step(s, e)) && Step(s, e).idle >= s.idle && Released(s)
    ensures Released(Step(s, e))
  {
  }

  lemma StepInv(s: State, e: Event)
    requires Inv(s)
    ensures Inv(Step(s, e))
  {
    hide Step, Slots, Registered, Idle, Released, Claimed;
    SlotsStep(s, e);
    RegisteredStep(s, e);
    IdleStep(s, e);
    ReleasedStep(s, e);
    ClaimedStep(s, e);
  }

  lemma {:induction false} RunInv(s: State, events: seq<Event>)
    requires Inv(s)
    ensures Inv(Run(s, events))
    decreases |events|
  {
    hide Inv, Step;
    if events != [] {
      StepInv(s, events[0]);
      RunInv(Step(s, events[0]), events[1..]);
    }
  }

  // ------------------------------------------------------------ main results

  /**
   * Under every interleaving: `idle` is closed exactly when the Compiler is
   * closed with no job registered, and once; the runtimes are released at
   * most once, and never while a job is registered; the tokens in `slots` are
   * the calls that hold one, within the bound.
   */
  lemma EveryInterleaving(capacity: Option<nat>, events: seq<Event>)
    ensures
      var s := Run(Initial(capacity), events);
      && s.idle <= 1
      && (s.idle == 1 <==> s.closed && s.jobs == {})
      && s.releases <= 1
      && (!s.release.NotStarted? ==> s.closed && s.jobs == {})
      && s.slots == |Holders(s)|
      && (capacity.Some? ==> s.slots <= capacity.value)
  {
    InitialInv(capacity);
    RunInv(Initial(capacity), events);
    hide Step;
    CapacityStays(Initial(capacity), events);
  }

  lemma CapacityStep(s: State, e: Event)
    ensures Step(s, e).capacity == s.capacity
  {
  }

  lemma {:induction false} CapacityStays(s: State, events: seq<Event>)
    ensures Run(s, events).capacity == s.capacity
    decreases |events|
  {
    hide Step;
    if events != [] {
      CapacityStep(s, events[0]);
      CapacityStays(Step(s, events[0]), events[1..]);
    }
  }

  /** Freeing a slot never blocks: the channel holds the call's own token. */
  lemma FreeNeverBlocks(s: State, j: nat)
    requires Inv(s) && At(s, j, Leaving(true))
    ensures At(Step(s, EvFree(j)), j, Leaving(false))
  {
    assert j in Holders(s);
    assert |Holders(s)| > 0;
  }

  lemma ClosedStep(s: State, e: Event)
    requires s.closed
    ensures Step(s, e).closed && Step(s, e).jobs <= s.jobs
  {
  }

  /** After Close no job registers: the registered ones only become fewer. */
  lemma {:induction false} NoJobAfterClose(s: State, events: seq<Event>)
    requires s.closed
    ensures Run(s, events).closed && Run(s, events).jobs <= s.jobs
    decreases |events|
  {
    hide Step;
    if events != [] {
      ClosedStep(s, events[0]);
      NoJobAfterClose(Step(s, events[0]), events[1..]);
    }
  }

  /**
   * The last job to leave a closed Compiler starts the release itself, even
   * when every call of Close gave up waiting before.
   */
  lemma LastJobReleases(s: State, j: nat, helper: nat)
    requires Inv(s) && s.closed && s.jobs == {j} && At(s, j, Leaving(false)) && helper !in s.closers
    ensures
      var s' := Run(s, [EvLeave(j, helper), EvEnterOnce(helper), EvExitOnce(helper)]);
      s'.idle == 1 && s'.release == Finished && s'.releases == 1
  {
    var s1 := Step(s, EvLeave(j, helper));
    assert s.jobs - {j} == {};
    assert s1.idle == 1 && CloserAt(s1, helper, Releasing) && s1.release == NotStarted;
    var s2 := Step(s1, EvEnterOnce(helper));
    var s3 := Step(s2, EvExitOnce(helper));
    assert s3.release == Finished;
    assert Run(s, [EvLeave(j, helper), EvEnterOnce(helper), EvExitOnce(helper)])
        == Run(s1, [EvEnterOnce(helper), EvExitOnce(helper)]) == Run(s2, [EvExitOnce(helper)]) == Run(s3, []) by {
      assert [EvLeave(j, helper), EvEnterOnce(helper), EvExitOnce(helper)][1..] == [EvEnterOnce(helper), EvExitOnce(helper)];
      assert [EvEnterOnce(helper), EvExitOnce(helper)][1..] == [EvExitOnce(helper)];
      assert [EvExitOnce(helper)][1..] == [];
    }
  }

  // ---------------------------------------------------- the Compiler object

  /** The mutex sections and channel operations, on the fields they change. */
  class Compiler {
    var closed: bool
    var idle: nat
    var slots: nat
    var jobs: set<nat>
    const capacity: Option<nat>

    constructor (capacity: Option<nat>)
      ensures this.capacity == capacity && !closed && idle == 0 && slots == 0 && jobs == {}
    {
      this.capacity := capacity;
      closed, idle, slots, jobs := false, 0, 0, {};
    }

    /** The fields agree with a state of the protocol. */
    ghost predicate Shows(s: State)
      reads this
    {
      s.closed == closed && s.idle == idle && s.slots == slots && s.jobs == jobs && s.capacity == capacity
    }

    method Register(ghost s: State, j: nat) returns (refused: bool)
      requires Shows(s) && Inv(s) && j !in s.phases
      modifies `jobs
      ensures refused == closed && Shows(Step(s, EvBegin(j)))
    {
      refused := closed;
      if !refused {
        jobs := jobs + {j};
      }
    }

    /** A send on c.slots, once there is room. */
    method Admit(ghost s: State, j: nat) returns (admitted: bool)
      requires Shows(s) && Inv(s) && At(s, j, Waiting)
      modifies `slots
      ensures admitted <==> At(Step(s, EvAdmit(j)), j, Active(true))
      ensures Shows(Step(s, EvAdmit(j)))
    {
      admitted := slots < capacity.value;
      if admitted {
        slots := slots + 1;
      }
    }

    /** A receive from c.slots, by a call that was admitted. */
    method Free(ghost s: State, j: nat)
      requires Shows(s) && Inv(s) && At(s, j, Leaving(true))
      modifies `slots
      ensures Shows(Step(s, EvFree(j))) && At(Step(s, EvFree(j)), j, Leaving(false))
    {
      FreeNeverBlocks(s, j);
      slots := slots - 1;
    }

    /** The end of done; the caller starts a goroutine that releases the runtimes. */
    method Leave(ghost s: State, j: nat, ghost helper: nat) returns (last: bool)
      requires Shows(s) && Inv(s) && At(s, j, Leaving(false)) && helper !in s.closers
      modifies `jobs, `idle
      ensures Shows(Step(s, EvLeave(j, helper)))
      ensures last <==> CloserAt(Step(s, EvLeave(j, helper)), helper, Releasing)
      ensures last ==> old(idle) == 0 && idle == 1
    {
      jobs := jobs - {j};
      last := closed && |jobs| == 0;
      if last {
        idle := idle + 1;
      }
    }

    /** The mutex section of Close. */
    method MarkClosed(ghost s: State, ghost k: nat)
      requires Shows(s) && Inv(s) && k !in s.closers
      modifies `closed, `idle
      ensures closed && Shows(Step(s, EvClose(k)))
      ensures idle <= 1 && (idle == 1 <==> jobs == {})
    {
      if !closed {
        closed := true;
        if |jobs| == 0 {
          idle := idle + 1;
        }
      }
    }
  }
}
