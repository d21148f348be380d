/**
 * The runtime that serves an instrumented guest: the job's control, the
 * wrapper around every import, the poll, and the choice of the outcome.
 */
module Runtime {
  import opened Prelude
  import opened Wasm
  import opened Rewriter
  import Containment
  import Latency
  import Preservation
  import Runs

  // ------------------------------------------------------- the environment

  datatype Signal = Absent | Pending | Aborted(reason: int) | Throws(error: int)

  /** What a consultation finds: the shared cell, the signal, the clock. */
  datatype Moment = Moment(cell: int, signal: Signal, late: bool)

  /** What an import does once it is allowed to act. */
  datatype Raw =
    | Returned(results: seq<u32>, memory: seq<int>)
    | Raised(error: int)
    | Slept(rounds: nat, results: seq<u32>, memory: seq<int>) // poll_oneoff waits, looking up `rounds` more times

  /** Everything the runtime does not decide itself. */
  datatype Env = Env(
    token: int,
    shared: bool,
    moment: nat -> Moment,
    act: (seq<Event>, nat, seq<Value>, seq<int>) -> Raw)

  const EINTR: u32 := 27

  // ----------------------------------------------------------- the control

  datatype Verdict = Proceed | Halt | Raise(error: int)

  /** `JobControl.cancelled`: once there is a reason, it stays. */
  function Consult(e: Env, w: World): (World, Verdict) {
    if w.reason.Some? then (w, Halt)
    else
      var now := e.moment(w.consults);
      var w' := w.(consults := w.consults + 1);
      if e.shared && now.cell == e.token then (w'.(reason := Some(AbortError)), Halt)
      else if now.signal.Throws? then (w', Raise(now.signal.error))
      else if now.signal.Aborted? then (w'.(reason := Some(SignalReason(now.signal.reason))), Halt)
      else if now.late then (w'.(reason := Some(TimeoutError)), Halt)
      else (w', Proceed)
  }

  /** `JobControl.sleep`, when time is left after each of `rounds` looks. */
  function Sleeping(e: Env, w: World, rounds: nat): (World, Verdict)
    decreases rounds
  {
    var (w', v) := Consult(e, w);
    if v.Proceed? && rounds > 0 then Sleeping(e, w', rounds - 1) else (w', v)
  }

  /** What a look at the n-th moment asks for, in the order of its parts: nothing, a stop, or an exception. */
  predicate Cancels(e: Env, n: nat) {
    e.shared && e.moment(n).cell == e.token
  }

  predicate Asks(e: Env, n: nat) {
    || Cancels(e, n)
    || e.moment(n).signal.Aborted?
    || (e.moment(n).late && !e.moment(n).signal.Throws?)
  }

  /** Why, where it asks for a stop: a cell outranks a signal, and a signal the clock. */
  predicate AsksFor(e: Env, n: nat, reason: Reason) {
    match reason
    case AbortError => Cancels(e, n)
    case SignalReason(value) => !Cancels(e, n) && e.moment(n).signal == Aborted(value)
    case TimeoutError =>
      !Cancels(e, n) && e.moment(n).late && (e.moment(n).signal.Absent? || e.moment(n).signal.Pending?)
  }

  /**
   * One job's control. `consults` stands for the time that passes: it selects
   * what the next look at the cell, the signal and the clock finds.
   */
  class JobControl {
    const env: Env
    var reason: Option<Reason>
    var consults: nat

    constructor (env: Env)
      requires env.shared ==> env.token != 0
      ensures this.env == env && reason == None && consults == 0
    {
      this.env := env;
      reason, consults := None, 0;
    }

    function View(w: World): World
      reads this
    {
      w.(reason := reason, consults := consults)
    }

    method Cancelled(ghost w: World) returns (v: Verdict)
      requires w == View(w)
      modifies this
      ensures (View(w), v) == Consult(env, w)
      ensures v.Halt? <==> old(reason).Some? || Asks(env, old(consults))
      ensures v.Halt? <==> reason.Some?
      ensures if old(reason).Some? then reason == old(reason) && consults == old(consults)
              else consults == old(consults) + 1 && (reason.Some? ==> AsksFor(env, old(consults), reason.value))
      ensures v.Raise? <==> old(reason).None? && !Cancels(env, old(consults)) && env.moment(old(consults)).signal.Throws?
      ensures v.Raise? ==> env.moment(old(consults)).signal == Throws(v.error)
    {
      if reason.Some? {
        return Halt;
      }
      var now := env.moment(consults);
      consults := consults + 1;
      if env.shared && now.cell == env.token {
        reason := Some(AbortError);
      } else if now.signal.Throws? {
        return Raise(now.signal.error);
      } else if now.signal.Aborted? {
        reason := Some(SignalReason(now.signal.reason));
      } else if now.late {
        reason := Some(TimeoutError);
      } else {
        return Proceed;
      }
      v := Halt;
    }

    method Sleep(ghost w: World, rounds: nat) returns (v: Verdict)
      requires w == View(w)
      modifies this
      ensures (View(w), v) == Sleeping(env, w, rounds)
    {
      var left := rounds;
      v := Cancelled(w);
      while v.Proceed? && left > 0
        invariant left <= rounds
        invariant Sleeping(env, w, rounds)
               == if v.Proceed? && left > 0 then Sleeping(env, View(w), left - 1) else (View(w), v)
      {
        ghost var before := View(w);
        v := Cancelled(before);
        left := left - 1;
      }
    }
  }

  // ------------------------------------------------------------- the host

  /** `halt`: the first stop is the one that counts. */
  function Halted(w: World, s: Stop): World {
    w.(stop := if w.stop.Some? then w.stop else Some(s))
  }

  function Acted(w: World, f: nat, args: seq<Value>, results: seq<u32>): World {
    w.(trace := w.trace + [Event(f, args, results)])
  }

  function Interrupted(w: World, memory: seq<int>, known: bool, s: Stop): Reply {
    Reply([EINTR], memory, Halted(w, s), known)
  }

  function ExitCode(args: seq<Value>): u32 {
    if |args| > 0 && args[0].I32? then args[0].n else 0
  }

  /** The original import, after the wrapper let it act. */
  function Original(exits: bool, e: Env, known: bool, w: World, f: nat, args: seq<Value>, memory: seq<int>): Reply {
    if exits then Reply([], memory, Halted(Acted(w, f, args, []), Exited(ExitCode(args))), known)
    else
      match e.act(w.trace, f, args, memory)
      case Returned(results, memory') => Reply(results, memory', Acted(w, f, args, results), false)
      case Raised(error) => Interrupted(Acted(w, f, args, []), memory, known, Failed(error))
      case Slept(rounds, results, memory') =>
        var (w1, v1) := Sleeping(e, w, rounds);
        var (w2, v2) := if v1.Raise? then (w1, v1) else Consult(e, w1);
        match v2
        case Proceed => Reply(results, memory', Acted(w2, f, args, results), false)
        case Halt => Interrupted(w2, memory, known, Cancelled)
        case Raise(error) => Interrupted(w2, memory, known, Failed(error))
  }

  /** The wrapper around every import. */
  function Wrapped(m: Module, e: Env, known: bool, w: World, f: nat, args: seq<Value>, memory: seq<int>): Reply {
    if w.stop.Some? then Reply([EINTR], memory, w, false)
    else
      var (w', v) := Consult(e, w);
      match v
      case Halt => Interrupted(w', memory, known, Cancelled)
      case Raise(error) => Interrupted(w', memory, known, Failed(error))
      case Proceed => Original(f < |m.imports| && m.imports[f].kind == Exit, e, known, w', f, args, memory)
  }

  /** `interrupt`, the added import. */
  function Polled(e: Env, known: bool, w: World): Answer {
    if w.stop.Some? then Answer(1, w, false)
    else
      var (w', v) := Consult(e, w);
      match v
      case Proceed => Answer(0, w', false)
      case Halt => Answer(1, Halted(w', Cancelled), known)
      case Raise(error) => Answer(1, Halted(w', Failed(error)), known)
  }

  /** The runtime as a host; `known` once it holds the countdown global. */
  function HostOf(m: Module, e: Env, known: bool): Host {
    Host((w, f: nat, args, memory) => Wrapped(m, e, known, w, f, args, memory), w => Polled(e, known, w))
  }

  /** What runCommand keeps while the guest runs. */
  class Supervisor {
    const m: Module
    const control: JobControl
    var trace: seq<Event>
    var stop: Option<Stop>
    var countdown: Option<u32> // the guest's global, once instantiated

    constructor (m: Module, control: JobControl)
      ensures this.m == m && this.control == control && stop == None && countdown == None && trace == []
    {
      this.m, this.control := m, control;
      trace, stop, countdown := [], None, None;
    }

    function World(): World
      reads this, control
    {
      Wasm.World(trace, control.consults, control.reason, stop)
    }

    /** Whether the countdown changed as a host that zeroes it says. */
    twostate predicate Zeroed(zero: bool)
      reads this
    {
      countdown == if zero && old(countdown).Some? then Some(0) else old(countdown)
    }

    method Halt(reason: Stop)
      modifies this
      ensures World() == Halted(old(World()), reason)
      ensures Zeroed(true)
    {
      if stop.None? {
        stop := Some(reason);
      }
      if countdown.Some? {
        countdown := Some(0);
      }
    }

    /** `cancel`, with the exception `cancelled` may raise. */
    method Cancel() returns (v: Verdict)
      modifies this, control
      ensures var (w, v') := Consult(control.env, old(World()));
              && v == v'
              && World() == if v.Halt? then Halted(w, Cancelled) else w
      ensures Zeroed(v.Halt?)
    {
      v := control.Cancelled(World());
      if v.Halt? {
        Halt(Cancelled);
      }
    }

    method Act(f: nat, args: seq<Value>, memory: seq<int>) returns (results: seq<u32>, memory': seq<int>)
      modifies this, control
      ensures var exits := f < |m.imports| && m.imports[f].kind == Exit;
              var r := Original(exits, control.env, old(countdown).Some?, old(World()), f, args, memory);
              results == r.results && memory' == r.memory && World() == r.world && Zeroed(r.zero)
    {
      results, memory' := [EINTR], memory;
      if f < |m.imports| && m.imports[f].kind == Exit {
        trace := trace + [Event(f, args, [])];
        Halt(Exited(ExitCode(args)));
        results := [];
        return;
      }
      var raw := control.env.act(trace, f, args, memory);
      match raw
      case Returned(rs, after) =>
        trace := trace + [Event(f, args, rs)];
        results, memory' := rs, after;
      case Raised(error) =>
        trace := trace + [Event(f, args, [])];
        Halt(Failed(error));
      case Slept(rounds, rs, after) =>
        var v := control.Sleep(World(), rounds);
        if !v.Raise? {
          v := control.Cancelled(World());
        }
        match v
        case Proceed =>
          trace := trace + [Event(f, args, rs)];
          results, memory' := rs, after;
        case Halt => Halt(Cancelled);
        case Raise(error) => Halt(Failed(error));
    }

    /** A guest's call of import `f`. */
    method Import(f: nat, args: seq<Value>, memory: seq<int>) returns (results: seq<u32>, memory': seq<int>)
      modifies this, control
      ensures var r := Wrapped(m, control.env, old(countdown).Some?, old(World()), f, args, memory);
              results == r.results && memory' == r.memory && World() == r.world && Zeroed(r.zero)
    {
      results, memory' := [EINTR], memory;
      if stop.Some? {
        return;
      }
      var v := Cancel();
      match v
      case Proceed => results, memory' := Act(f, args, memory);
      case Halt =>
      case Raise(error) => Halt(Failed(error));
    }

    /** The guest's poll. */
    method Interrupt() returns (answer: u32)
      modifies this, control
      ensures var a := Polled(control.env, old(countdown).Some?, old(World()));
              answer == a.answer && World() == a.world && Zeroed(a.zero)
    {
      if stop.Some? {
        return 1;
      }
      var v := Cancel();
      match v
      case Proceed => answer := 0;
      case Halt => answer := 1;
      case Raise(error) =>
        Halt(Failed(error));
        answer := 1;
    }
  }

  // ------------------------------------------------------- laws of the host

  lemma ConsultKeepsStop(e: Env, w: World)
    ensures var (w', v) := Consult(e, w);
            && w'.stop == w.stop && w'.trace == w.trace
            && (v.Halt? <==> w'.reason.Some?)
            && (w.reason.Some? ==> w'.reason == w.reason)
  {
  }

  /** A look stops the job exactly if it asks for that, and for its reason. */
  lemma ConsultHeeds(e: Env, w: World)
    ensures var (w', v) := Consult(e, w);
            && (v.Halt? <==> w.reason.Some? || Asks(e, w.consults))
            && (w.reason.None? ==> w'.consults == w.consults + 1 && (v.Halt? ==> AsksFor(e, w.consults, w'.reason.value)))
            && (v.Raise? <==> w.reason.None? && !Cancels(e, w.consults) && e.moment(w.consults).signal.Throws?)
            && (v.Raise? ==> e.moment(w.consults).signal == Throws(v.error))
  {
  }

  /** Every moment that was looked at asked for nothing, but for the last one of a job that was cancelled. */
  ghost predicate Heeded(e: Env, w: World) {
    && (w.reason.Some? <==> w.stop == Some(Cancelled))
    && (w.reason.Some? ==> w.consults > 0 && AsksFor(e, w.consults - 1, w.reason.value))
    && forall n: nat | n < (if w.reason.Some? then w.consults - 1 else w.consults) :: !Asks(e, n)
  }

  /** Between a look and what the runtime makes of it. */
  ghost predicate Looked(e: Env, w: World, v: Verdict) {
    && w.stop.None? && (v.Halt? <==> w.reason.Some?)
    && Heeded(e, if v.Halt? then Halted(w, Stop.Cancelled) else w)
  }

  lemma ConsultLooks(e: Env, w: World)
    requires Heeded(e, w) && w.stop.None?
    ensures var (w', v) := Consult(e, w); Looked(e, w', v)
  {
    ConsultHeeds(e, w);
    ConsultKeepsStop(e, w);
    hide Consult, Asks, AsksFor, Cancels;
  }

  lemma {:induction false} SleepLooks(e: Env, w: World, rounds: nat)
    requires Heeded(e, w) && w.stop.None?
    ensures var (w', v) := Sleeping(e, w, rounds); Looked(e, w', v)
    decreases rounds
  {
    hide Consult;
    ConsultLooks(e, w);
    var (w', v) := Consult(e, w);
    if v.Proceed? && rounds > 0 {
      SleepLooks(e, w', rounds - 1);
    }
  }

  lemma AgainLooks(e: Env, w: World, v: Verdict)
    requires Looked(e, w, v)
    ensures var (w', v') := Consult(e, w); Looked(e, w', v')
  {
    if v.Halt? {
    } else {
      ConsultLooks(e, w);
    }
  }

  lemma CallHeeds(m: Module, e: Env, known: bool, w: World, f: nat, args: seq<Value>, memory: seq<int>)
    requires Heeded(e, w)
    ensures Heeded(e, Wrapped(m, e, known, w, f, args, memory).world)
  {
    if w.stop.None? {
      ConsultLooks(e, w);
      var (w', v) := Consult(e, w);
      var raw := e.act(w'.trace, f, args, memory);
      if v.Proceed? && raw.Slept? {
        SleepLooks(e, w', raw.rounds);
        var (w1, v1) := Sleeping(e, w', raw.rounds);
        AgainLooks(e, w1, v1);
      }
      hide Consult, Sleeping, Asks, AsksFor;
    }
  }

  lemma PollHeeds(e: Env, known: bool, w: World)
    requires Heeded(e, w)
    ensures Heeded(e, Polled(e, known, w).world)
  {
    if w.stop.None? {
      ConsultLooks(e, w);
      hide Consult, Asks, AsksFor;
    }
  }

  /** No import and no poll overlooks a moment that asks for a stop. */
  lemma RuntimeHeeds(m: Module, e: Env, known: bool)
    ensures Runs.Invariant(HostOf(m, e, known), w => Heeded(e, w))
  {
    var h, inv := HostOf(m, e, known), w => Heeded(e, w);
    forall w ensures Runs.Keeps(h, inv, w) {
      if Heeded(e, w) {
        PollHeeds(e, known, w);
        forall f, args, memory ensures inv(h.call(w, f, args, memory).world) {
          CallHeeds(m, e, known, w, f, args, memory);
        }
      }
    }
  }

  /** A poll answers 1 exactly if the job has been stopped, now or before. */
  lemma PollStops(e: Env, known: bool, w: World)
    ensures var a := Polled(e, known, w);
            && a.answer == (if a.world.stop.Some? then 1 else 0)
            && (a.zero <==> known && w.stop.None? && a.world.stop.Some?)
            && (w.stop.None? && w.reason.None? && Asks(e, w.consults) ==> a.world.stop == Some(Cancelled))
  {
    ConsultHeeds(e, w);
    ConsultKeepsStop(e, w);
    hide Consult, Asks;
  }

  /** The guest's own exit code is what is recorded. */
  lemma ExitRecords(m: Module, e: Env, known: bool, w: World, f: nat, code: u32, memory: seq<int>)
    requires f < |m.imports| && m.imports[f].kind == Exit
    requires w.stop.None? && w.reason.None? && !Asks(e, w.consults) && !e.moment(w.consults).signal.Throws?
    ensures var r := Wrapped(m, e, known, w, f, [I32(code)], memory);
            r.world.stop == Some(Exited(code)) && r.memory == memory && r.zero == known
  {
    ConsultHeeds(e, w);
  }

  /** An import that returns hands the guest its results and its memory, and is on record. */
  lemma ImportReturns(m: Module, e: Env, known: bool, w: World, f: nat, args: seq<Value>, memory: seq<int>)
    requires f < |m.imports| ==> m.imports[f].kind != Exit
    requires w.stop.None? && w.reason.None? && !Asks(e, w.consults) && !e.moment(w.consults).signal.Throws?
    requires e.act(w.trace, f, args, memory).Returned?
    ensures
      var r, raw := Wrapped(m, e, known, w, f, args, memory), e.act(w.trace, f, args, memory);
      && r.results == raw.results && r.memory == raw.memory && !r.zero
      && r.world.stop.None? && r.world.trace == w.trace + [Event(f, args, raw.results)]
  {
    ConsultHeeds(e, w);
    ConsultKeepsStop(e, w);
  }

  /** An exception of the host is recorded as such, and stops the guest. */
  lemma ImportRaises(m: Module, e: Env, known: bool, w: World, f: nat, args: seq<Value>, memory: seq<int>)
    requires f < |m.imports| ==> m.imports[f].kind != Exit
    requires w.stop.None? && w.reason.None? && !Asks(e, w.consults) && !e.moment(w.consults).signal.Throws?
    requires e.act(w.trace, f, args, memory).Raised?
    ensures
      var r := Wrapped(m, e, known, w, f, args, memory);
      && r.world.stop == Some(Failed(e.act(w.trace, f, args, memory).error))
      && r.results == [EINTR] && r.memory == memory && r.zero == known
  {
    ConsultHeeds(e, w);
    ConsultKeepsStop(e, w);
  }

  lemma {:induction false} SleepKeepsStop(e: Env, w: World, rounds: nat)
    ensures var (w', v) := Sleeping(e, w, rounds);
            && w'.stop == w.stop && w'.trace == w.trace
            && (v.Halt? <==> w'.reason.Some?)
            && (w.reason.Some? ==> w'.reason == w.reason)
    decreases rounds
  {
    ConsultKeepsStop(e, w);
    var (w', v) := Consult(e, w);
    if v.Proceed? && rounds > 0 {
      SleepKeepsStop(e, w', rounds - 1);
    }
  }

  /** Once it holds the countdown, the runtime stops guests as the checks need. */
  lemma RuntimeHalts(m: Module, e: Env)
    ensures Containment.Halting(m, HostOf(m, e, true))
  {
    var h := HostOf(m, e, true);
    forall w ensures Containment.HaltingPoll(h, w) {
      ConsultKeepsStop(e, w);
    }
    forall w, f, args, memory ensures Containment.HaltingCall(m, h, w, f, args, memory) {
      CallHalts(m, e, w, f, args, memory);
    }
  }

  lemma CallHalts(m: Module, e: Env, w: World, f: nat, args: seq<Value>, memory: seq<int>)
    ensures Containment.HaltingCall(m, HostOf(m, e, true), w, f, args, memory)
  {
    ConsultKeepsStop(e, w);
    var (w', v) := Consult(e, w);
    var raw := e.act(w'.trace, f, args, memory);
    if raw.Slept? {
      SleepKeepsStop(e, w', raw.rounds);
      ConsultKeepsStop(e, Sleeping(e, w', raw.rounds).0);
    }
  }

  /** After a stop no import acts, and nothing about the stop changes. */
  lemma NothingActsAfterStop(m: Module, e: Env, known: bool)
    ensures Runs.Sticky(HostOf(m, e, known))
  {
  }

  /** Before the countdown is known only the zeroing differs. */
  lemma KnownOrNot(m: Module, e: Env)
    ensures Runs.AlikeUntilStop(HostOf(m, e, false), HostOf(m, e, true))
  {
    var h, g := HostOf(m, e, false), HostOf(m, e, true);
    forall w ensures Runs.Keeps(h, Runs.IsStopped, w) {
    }
    forall w ensures Runs.Alike(h, g, w) {
    }
  }

  /** A recorded cancellation has the control's reason. */
  predicate Reasoned(w: World) {
    w.stop == Some(Cancelled) ==> w.reason.Some?
  }

  lemma RuntimeKeepsReason(m: Module, e: Env, known: bool)
    ensures Runs.Invariant(HostOf(m, e, known), Reasoned)
  {
    var h := HostOf(m, e, known);
    forall w ensures Runs.Keeps(h, Reasoned, w) {
      ConsultKeepsStop(e, w);
      forall f, args, memory ensures Reasoned(w) ==> Reasoned(h.call(w, f, args, memory).world) {
        var (w', v) := Consult(e, w);
        var raw := e.act(w'.trace, f, args, memory);
        if raw.Slept? {
          SleepKeepsStop(e, w', raw.rounds);
          ConsultKeepsStop(e, Sleeping(e, w', raw.rounds).0);
        }
      }
    }
  }

  // ---------------------------------------------------- undisturbed jobs

  /** Nobody cancels the job, it is never late, and no import raises. */
  ghost predicate Undisturbed(e: Env) {
    && (forall n :: e.shared ==> e.moment(n).cell != e.token)
    && (forall n :: e.moment(n).signal.Absent? || e.moment(n).signal.Pending?)
    && (forall n :: !e.moment(n).late)
    && (forall trace, f, args, memory :: !e.act(trace, f, args, memory).Raised?)
  }

  lemma UndisturbedConsult(e: Env, w: World)
    requires Undisturbed(e)
    requires w.reason.None?
    ensures Consult(e, w) == (w.(consults := w.consults + 1), Proceed)
  {
    assert !e.moment(w.consults).signal.Throws?;
  }

  lemma {:induction false} UndisturbedSleep(e: Env, w: World, rounds: nat)
    requires Undisturbed(e)
    requires w.reason.None?
    ensures Sleeping(e, w, rounds) == (w.(consults := w.consults + rounds + 1), Proceed)
    decreases rounds
  {
    UndisturbedConsult(e, w);
    if rounds > 0 {
      UndisturbedSleep(e, w.(consults := w.consults + 1), rounds - 1);
    }
  }

  lemma UndisturbedCall(m: Module, e: Env, known: bool, w: World, f: nat, args: seq<Value>, memory: seq<int>)
    requires Undisturbed(e)
    ensures Preservation.QuietCall(m, HostOf(m, e, known), w, f, args, memory)
  {
    hide Sleeping, Consult;
    var v := Preservation.Visible(w);
    if w.stop.None? && w.reason.None? {
      UndisturbedConsult(e, w);
      UndisturbedConsult(e, v);
      var raw := e.act(w.trace, f, args, memory);
      if raw.Slept? {
        var w', v' := w.(consults := w.consults + 1), v.(consults := v.consults + 1);
        UndisturbedSleep(e, w', raw.rounds);
        UndisturbedSleep(e, v', raw.rounds);
        UndisturbedConsult(e, w'.(consults := w'.consults + raw.rounds + 1));
        UndisturbedConsult(e, v'.(consults := v'.consults + raw.rounds + 1));
      }
    } else {
      StoppedConsult(e, w);
      StoppedConsult(e, v);
    }
  }

  lemma StoppedConsult(e: Env, w: World)
    ensures w.reason.Some? ==> Consult(e, w) == (w, Halt)
  {
  }

  /** The runtime itself is a quiet host for an undisturbed job. */
  lemma RuntimeIsQuiet(m: Module, e: Env, known: bool)
    requires Undisturbed(e)
    ensures Preservation.Quiet(m, HostOf(m, e, known))
  {
    var h := HostOf(m, e, known);
    forall w ensures Preservation.QuietPoll(h, w) {
      if w.reason.None? {
        UndisturbedConsult(e, w);
      }
    }
    forall w, f, args, memory ensures Preservation.QuietCall(m, h, w, f, args, memory) {
      UndisturbedCall(m, e, known, w, f, args, memory);
    }
  }

  /** An undisturbed job cannot tell that its guest was instrumented. */
  lemma UndisturbedJob(p: Plan, e: Env, j: nat, args: seq<Value>, st: Store, fuel: nat)
    requires WellPlanned(p) && Undisturbed(e)
    requires j < |p.m.funcs|
    requires Preservation.Instantiated(p, st) && Preservation.ValuesDeclared(p, args)
    requires !Invoke(p.m, HostOf(p.m, e, true), j, args, st, fuel).Bad?
    ensures
      var h := HostOf(p.m, e, true);
      var o := Invoke(p.m, h, j, args, st, fuel);
      !o.NoFuel? ==>
        Preservation.SameResult(p, o, Invoke(Instrument(p), h, j, Preservation.ImageValues(p, args),
                                             Preservation.ImageStore(p, st), fuel + 1))
  {
    hide *;
    RuntimeIsQuiet(p.m, e, true);
    Preservation.MeaningPreserved(p, HostOf(p.m, e, true), j, args, st, fuel);
  }

  // ------------------------------------------------------------ a command

  datatype Cause = GuestTrapped | GuestThrew | HostError(error: int) | NotACommand | NotInstrumented | Collecting(error: int)

  /** Files are what the command left in its root directory. */
  datatype Outcome =
    | Rejected(reason: Reason)
    | CommandError(cause: Cause)
    | Completed(code: u32, files: Option<int>)
    | Unfinished // the run outlasts its fuel
    | Invalid // the engine does not validate the module

  /** What the instance exports: `memory` with `_start`, and the countdown. */
  datatype Exports = Exports(command: bool, countdown: bool)

  /** The end of runCommand, from the recorded stop and the run's own end. */
  function Settle(w: World, failure: Option<Cause>, readonly: bool, collected: Result<int, int>): Outcome
    requires Reasoned(w)
  {
    var failed := if w.stop.Some? && w.stop.value.Failed? then Some(HostError(w.stop.value.error)) else failure;
    var code := if w.stop.Some? && w.stop.value.Exited? then w.stop.value.code else 0;
    if w.stop == Some(Cancelled) then Rejected(w.reason.value)
    else if failed.Some? then CommandError(failed.value)
    else if code != 0 || readonly then Completed(code, None)
    else if collected.Err? then CommandError(Collecting(collected.error))
    else Completed(code, Some(collected.value))
  }

  /** A freshly instantiated guest, of a job that nothing has stopped. */
  ghost predicate Ready(p: Plan, st: Store) {
    Containment.Running(p, st) && st.world.stop.None? && Reasoned(st.world)
  }

  /** A run of the instance, before or after the countdown is known. */
  function RunOf(p: Plan, e: Env, known: bool, k: nat, st: Store, fuel: nat): Res
    requires WellPlanned(p)
    requires k < |p.m.funcs| + |p.thunks|
  {
    Latency.InstrumentedModule(p);
    Invoke(Instrument(p), HostOf(p.m, e, known), k, [], st, fuel)
  }

  lemma RunKeepsReason(p: Plan, e: Env, known: bool, k: nat, st: Store, fuel: nat)
    requires WellPlanned(p)
    requires k < |p.m.funcs| + |p.thunks|
    requires Reasoned(st.world)
    ensures var r := RunOf(p, e, known, k, st, fuel); !r.Bad? ==> Reasoned(r.store.world)
  {
    Latency.InstrumentedModule(p);
    hide Instrument, WellPlanned, Invoke, HostOf, Reasoned, Runs.Invariant;
    RuntimeKeepsReason(p.m, e, known);
    Runs.InvokeKeeps(Instrument(p), HostOf(p.m, e, known), Reasoned, k, [], st, fuel);
  }

  lemma RunHeeds(p: Plan, e: Env, known: bool, k: nat, st: Store, fuel: nat)
    requires WellPlanned(p)
    requires k < |p.m.funcs| + |p.thunks|
    requires Heeded(e, st.world)
    ensures var r := RunOf(p, e, known, k, st, fuel); !r.Bad? ==> Heeded(e, r.store.world)
  {
    Latency.InstrumentedModule(p);
    var inv := w => Heeded(e, w);
    hide Instrument, WellPlanned, Invoke, HostOf, Heeded, Runs.Invariant;
    RuntimeHeeds(p.m, e, known);
    Runs.InvokeKeeps(Instrument(p), HostOf(p.m, e, known), inv, k, [], st, fuel);
  }

  /** The guest's command: a stop in it traps, whatever the guest had set up. */
  lemma CommandContained(p: Plan, e: Env, k: nat, st: Store, fuel: nat)
    requires WellPlanned(p) && Latency.Validated(p)
    requires k < |p.m.funcs| + |p.thunks|
    requires Ready(p, st)
    ensures var r := RunOf(p, e, true, k, st, fuel);
            !r.Bad? ==>
              && Reasoned(r.store.world)
              && if r.store.world.stop.Some? then r.Trapped? && Containment.Stopped(p, r.store)
                 else r.store.meter.after == []
  {
    Latency.InstrumentedModule(p);
    hide Instrument, WellPlanned, Invoke, HostOf, Reasoned, Containment.Halting, Latency.Validated;
    RuntimeHalts(p.m, e);
    RunKeepsReason(p, e, true, k, st, fuel);
    Containment.StopContained(p, HostOf(p.m, e, true), k, [], st, fuel);
  }

  /**
   * A start function runs before the countdown is known. Either it was
   * stopped, or it leaves the guest ready for the command.
   */
  lemma StartContained(p: Plan, e: Env, k: nat, st: Store, fuel: nat)
    requires WellPlanned(p) && Latency.Validated(p)
    requires k < |p.m.funcs| + |p.thunks|
    requires Ready(p, st)
    ensures var r := RunOf(p, e, false, k, st, fuel);
            !r.Bad? ==> Reasoned(r.store.world) && (r.store.world.stop.Some? || Ready(p, r.store))
  {
    Latency.InstrumentedModule(p);
    hide Instrument, WellPlanned, Invoke, HostOf, Reasoned, Containment.Halting, Latency.Validated, Containment.Running;
    KnownOrNot(p.m, e);
    RuntimeHalts(p.m, e);
    RunKeepsReason(p, e, false, k, st, fuel);
    var m := Instrument(p);
    Runs.InvokeAlike(m, HostOf(p.m, e, false), HostOf(p.m, e, true), k, [], st, fuel);
    Containment.SafeInvoke(p, HostOf(p.m, e, true), k, [], st, fuel);
  }

  /** What the run of a function that takes and returns nothing throws at its caller. */
  function Thrown(r: Res): Option<Cause> {
    match r
    case Trapped(_) => Some(GuestTrapped)
    case Threw(_) => Some(GuestThrew)
    case _ => None
  }

  /** The run of the start function, if there is one. */
  function StartRun(p: Plan, e: Env, start: Option<nat>, st: Store, fuel: nat): Res
    requires WellPlanned(p)
    requires start.Some? ==> start.value < |p.m.funcs| + |p.thunks|
  {
    if start.Some? then RunOf(p, e, false, start.value, st, fuel) else Done([], st)
  }

  /** What a stopped job ends with: the stop decides, whatever the guest's run did. */
  ghost predicate StopDecides(w: World, outcome: Outcome, readonly: bool, collected: Result<int, int>)
    requires w.stop.Some?
  {
    match w.stop.value
    case Cancelled => w.reason.Some? && outcome == Rejected(w.reason.value)
    case Failed(error) => outcome == CommandError(HostError(error))
    case Exited(code) =>
      if code == 0 && !readonly then Collected(outcome, collected) else outcome == Completed(code, None)
  }

  /** A successful command on a writable root hands over its files. */
  predicate Collected(outcome: Outcome, collected: Result<int, int>) {
    match collected
    case Ok(files) => outcome == Completed(0, Some(files))
    case Err(error) => outcome == CommandError(Collecting(error))
  }

  /** What a job that nothing stopped ends with: the run itself decides. */
  ghost predicate RunDecides(r: Res, outcome: Outcome, readonly: bool, collected: Result<int, int>) {
    match r
    case Done(_, _) => if readonly then outcome == Completed(0, None) else Collected(outcome, collected)
    case Trapped(_) => outcome == CommandError(GuestTrapped)
    case Threw(_) => outcome == CommandError(GuestThrew)
    case NoFuel(_) => outcome == Unfinished
    case Bad => outcome == Outcome.Invalid
  }

  /**
   * Instantiates the module, whose start function runs before the countdown
   * is known, then runs its command. A recorded stop alone decides the
   * outcome; `began` says whether the command ran at all.
   */
  method RunCommand(p: Plan, e: Env, start: Option<nat>, main: nat, st0: Store, exports: Exports,
                    readonly: bool, collected: Result<int, int>, fuel: nat)
    returns (outcome: Outcome, st: Store, began: bool)
    requires WellPlanned(p) && Latency.Validated(p)
    requires start.Some? ==> start.value < |p.m.funcs| + |p.thunks|
    requires main < |p.m.funcs| + |p.thunks|
    requires Ready(p, st0)
    ensures Reasoned(st.world)
    ensures Heeded(e, st0.world) ==> Heeded(e, st.world)
    ensures st.world.stop.Some? && !outcome.Invalid? && !outcome.Unfinished?
        ==> StopDecides(st.world, outcome, readonly, collected)
    ensures began && st.world.stop.Some? ==> Containment.Stopped(p, st) && !outcome.Unfinished?
    ensures
      var first := StartRun(p, e, start, st0, fuel);
      && (began <==> first.Done? && first.store.world.stop.None? && exports.command && exports.countdown)
      && (first.Bad? ==> outcome.Invalid?) && (first.NoFuel? ==> outcome.Unfinished?)
      && (!first.Bad? && !began ==> st == first.store)
      && (!began && !first.Bad? && first.store.world.stop.None? ==>
            if first.Done? then
              outcome == CommandError(if exports.command then NotInstrumented else NotACommand)
            else RunDecides(first, outcome, readonly, collected))
      && (began ==>
            var r := RunOf(p, e, true, main, first.store, fuel);
            if r.Bad? then outcome.Invalid?
            else st == r.store && (st.world.stop.None? ==> RunDecides(r, outcome, readonly, collected)))
  {
    hide Containment.Running, Containment.Stopped, RunOf, Latency.Validated, WellPlanned, Heeded;
    st, began := st0, false;
    var failure: Option<Cause> := None;
    if start.Some? {
      StartContained(p, e, start.value, st, fuel);
      HeedsIf(p, e, false, start.value, st, fuel);
      var r := RunOf(p, e, false, start.value, st, fuel);
      if r.Bad? {
        return Outcome.Invalid, st, began;
      }
      st := r.store;
      if r.NoFuel? {
        return Unfinished, st, began;
      }
      failure := Thrown(r);
    }
    if failure.None? {
      if !exports.command {
        failure := Some(NotACommand);
      } else if !exports.countdown {
        failure := Some(NotInstrumented);
      } else if st.world.stop.None? {
        began := true;
        CommandContained(p, e, main, st, fuel);
        HeedsIf(p, e, true, main, st, fuel);
        var r := RunOf(p, e, true, main, st, fuel);
        if r.Bad? {
          return Outcome.Invalid, st, began;
        }
        st := r.store;
        if r.NoFuel? {
          return Unfinished, st, began;
        }
        failure := Thrown(r);
      }
    }
    if st.world.stop.Some? {
      failure := None;
    }
    outcome := Settle(st.world, failure, readonly, collected);
  }

  lemma HeedsIf(p: Plan, e: Env, known: bool, k: nat, st: Store, fuel: nat)
    requires WellPlanned(p)
    requires k < |p.m.funcs| + |p.thunks|
    ensures var r := RunOf(p, e, known, k, st, fuel); Heeded(e, st.world) && !r.Bad? ==> Heeded(e, r.store.world)
  {
    hide Heeded, RunOf, WellPlanned;
    if Heeded(e, st.world) {
      RunHeeds(p, e, known, k, st, fuel);
    }
  }
}
