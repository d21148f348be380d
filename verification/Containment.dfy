/**
 * Stop containment: once the host records a stop, the guest executes nothing
 * but the rest of a check, and traps.
 */
module Containment {
  import opened Prelude
  import opened Wasm
  import opened Rewriter
  import opened Checks
  import Latency

  // ---------------------------------------------------------------- the host

  /** A stop in a poll is answered; a poll after a stop is answered too. */
  ghost predicate HaltingPoll(h: Host, w: World) {
    var a := h.poll(w);
    && (a.answer != 0 <==> a.world.stop.Some?)
    && (w.stop.Some? ==> a.world.stop == w.stop)
  }

  /** A stop in an import zeroes the countdown; proc_exit always stops. */
  ghost predicate HaltingCall(m: Module, h: Host, w: World, f: nat, args: seq<Value>, memory: seq<int>) {
    var r := h.call(w, f, args, memory);
    w.stop.None? && f < |m.imports| ==>
      && (r.world.stop.Some? ==> r.zero)
      && (m.imports[f].kind == Exit ==> r.world.stop.Some?)
  }

  /** A host that stops guests the way the runtime does. */
  ghost predicate Halting(m: Module, h: Host) {
    && (forall w :: HaltingPoll(h, w))
    && (forall w, f, args, memory :: HaltingCall(m, h, w, f, args, memory))
  }

  // --------------------------------------------------------------- the claim

  /** The whole check that follows an import, up to its trap. */
  function AfterImport(p: Plan): seq<Instr> {
    [GlobalGet(p.counter), Eqz, If(0, PollAndReset(p), End), Call(Imported(p)), stopInstr, Unreachable]
  }

  /** What follows a poll that stopped the guest. */
  const afterPoll: seq<Instr> := [stopInstr, Unreachable]

  /** What follows proc_exit. */
  const afterExit: seq<Instr> := [Unreachable]

  ghost predicate Running(p: Plan, st: Store) {
    && HasCountdown(p, st)
    && st.world.stop.None?
    && st.meter.after == []
    && Clean(p, st.globals)
    && Clean(p, st.table)
  }

  ghost predicate Stopped(p: Plan, st: Store) {
    && st.world.stop.Some?
    && (st.meter.after == AfterImport(p) || st.meter.after == afterPoll || st.meter.after == afterExit)
  }

  /** No value names an import or the poll directly. */
  ghost predicate Clean(p: Plan, vs: seq<Value>) {
    forall j | 0 <= j < |vs| && vs[j].Ref? :: vs[j].f > Imported(p)
  }

  ghost predicate Safe(p: Plan, s: State) {
    Running(p, s.store) && Clean(p, s.locals) && Clean(p, s.stack)
  }

  /** A stopped guest traps; anything else means that nothing was stopped. */
  ghost predicate OutSafe(p: Plan, o: Out) {
    match o
    case Stuck => true
    case Trap(s) => Stopped(p, s.store) || Running(p, s.store)
    case Tail(f, args, s) => f > Imported(p) && Clean(p, args) && Safe(p, s)
    case _ => Safe(p, o.s)
  }

  ghost predicate ResSafe(p: Plan, r: Res) {
    match r
    case Bad => true
    case Trapped(st) => Stopped(p, st) || Running(p, st)
    case Done(rs, st) => Clean(p, rs) && Running(p, st)
    case _ => Running(p, r.store)
  }

  // ------------------------------------------------------------------ checks

  lemma SafePoll(p: Plan, h: Host, s: State)
    requires Halting(p.m, h)
    requires Safe(p, s)
    ensures var o := PollOutcome(p, h, s);
            && (o.Next? ==> Safe(p, o.s) && o.s.stack == s.stack && o.s.locals == s.locals)
            && (o.Trap? ==> Stopped(p, o.s.store))
            && (o.Next? || o.Trap?)
  {
    assert HaltingPoll(h, s.store.world);
  }

  lemma SafeDecremented(p: Plan, st: Store)
    requires Running(p, st)
    ensures Running(p, Decremented(p, st))
  {
  }

  /** A check of a running guest. */
  lemma SafeCheck(p: Plan, h: Host, s: State, fuel: nat)
    requires WellPlanned(p) && Halting(p.m, h)
    requires Safe(p, s)
    ensures var o := Exec(Instrument(p), h, Check(p), s, fuel);
            && (o.Next? || o.Trap?)
            && (o.Next? ==> Safe(p, o.s) && o.s.stack == s.stack)
            && (o.Trap? ==> Stopped(p, o.s.store))
  {
    hide Exec, Step, Instrument, WellPlanned, PollOutcome, Decremented, Halting;
    ExecCheck(p, h, s, fuel);
    var s' := s.(store := Tested(p, s.store));
    SafePoll(p, h, s');
    var o := if Countdown(p, s.store) != 0 then Next(s') else PollOutcome(p, h, s');
    if o.Next? {
      SafeDecremented(p, o.s.store);
    }
  }

  /** The check right after an import that stopped the guest. */
  lemma StoppedCheck(p: Plan, h: Host, s: State, fuel: nat)
    requires WellPlanned(p) && Halting(p.m, h)
    requires HasCountdown(p, s.store) && Countdown(p, s.store) == 0
    requires s.store.world.stop.Some? && s.store.meter.after == []
    ensures var o := Exec(Instrument(p), h, Check(p), s, fuel);
            o.Trap? && Stopped(p, o.s.store)
  {
    hide Exec, Step, Instrument, WellPlanned, Decremented;
    ExecCheck(p, h, s, fuel);
    var s' := s.(store := Tested(p, s.store));
    assert HaltingPoll(h, s'.store.world);
    assert s'.store.meter.after == [GlobalGet(p.counter), Eqz, If(0, PollAndReset(p), End)];
    assert PollOutcome(p, h, s').Trap?;
  }

  lemma SafeLarge(p: Plan, h: Host, s: State, scratch: nat, shift: u32)
    requires Halting(p.m, h)
    requires Safe(p, s)
    requires scratch < |s.locals| && s.locals[scratch].I32?
    ensures var o := LargeOutcome(p, h, s, scratch, shift);
            && (o.Next? ==> Safe(p, o.s))
            && (o.Trap? ==> Stopped(p, o.s.store))
  {
    hide Apply, PollOutcome, Halting;
    SafePoll(p, h, s.(store := Compared(p, s.store, scratch, shift)));
  }

  lemma SafeCharge(p: Plan, h: Host, s: State, scratch: nat, shift: u32, fuel: nat)
    requires WellPlanned(p) && Halting(p.m, h)
    requires shift == memoryChargeShift || shift == tableChargeShift
    requires Safe(p, s)
    ensures var o := Exec(Instrument(p), h, Charge(p, scratch, shift), s, fuel);
            && (o.Next? || o.Trap? || o.Stuck?)
            && (o.Next? ==> Safe(p, o.s))
            && (o.Trap? ==> Stopped(p, o.s.store))
  {
    hide Exec, Step, Instrument, WellPlanned, LargeOutcome, Halting, Apply, Charge;
    if |s.stack| > 0 && Top(s.stack).I32? && scratch < |s.locals| {
      ExecCharge(p, h, s, scratch, shift, fuel);
      var s' := Sized(p, s, scratch, shift);
      SafeLarge(p, h, s', scratch, shift);
      LargeKeepsLocals(p, h, s', scratch, shift);
    } else {
      Latency.ChargeStuck(p, h, s, scratch, shift, fuel);
    }
  }

  // ---------------------------------------------------------------- imports

  /** An import leaves a running guest, or a stop and a zeroed countdown. */
  ghost predicate AfterCall(p: Plan, st: Store) {
    || Running(p, st)
    || (st.world.stop.Some? && st.meter.after == [] && HasCountdown(p, st) && Countdown(p, st) == 0)
  }

  lemma SafeImport(p: Plan, h: Host, f: nat, args: seq<Value>, st: Store)
    requires WellPlanned(p) && Halting(p.m, h)
    requires f < Imported(p)
    requires Running(p, st)
    ensures var r := CallImport(Instrument(p), h, f, args, st);
            && r.Done?
            && Clean(p, r.results)
            && AfterCall(p, r.store)
            && (IsExit(p, f) ==> r.store.world.stop.Some? && r.store.meter.after == [])
  {
    hide AllDeclared;
    var m := Instrument(p);
    assert m.imports[f] == p.m.imports[f];
    assert p.m.imports[f].kind != Poll;
    assert HaltingCall(p.m, h, st.world, f, OpaqueAll(args), st.memory);
  }

  lemma SafeImportCall(p: Plan, h: Host, f: nat, s: State, fuel: nat)
    requires WellPlanned(p) && Halting(p.m, h)
    requires f < Imported(p)
    requires Safe(p, s)
    ensures var o := Exec(Instrument(p), h, ImportCall(p, f), s, fuel);
            OutSafe(p, o) && !o.Tail?
  {
    var m := Instrument(p);
    Latency.InstrumentedModule(p);
    hide Exec, CallImport, WellPlanned, Check, Instrument, Halting, Running, Stopped, Step;
    ExecThen(m, h, Call(f), if IsExit(p, f) then Then(Unreachable, End) else Check(p), s, fuel);
    var t := Tick(s, Call(f));
    StepCall(m, h, f, s, fuel);
    RunningTick(p, s.store, Call(f));
    if |s.stack| >= TypeOf(m, f).params {
      var (t', args) := Args(t, TypeOf(m, f).params);
      SafeImport(p, h, f, args, t'.store);
      CallUnfold(m, h, f, args, t'.store, fuel);
      var r := CallImport(m, h, f, args, t'.store);
      var s1 := t'.(stack := t'.stack + r.results, store := r.store);
      assert Step(m, h, Call(f), s, fuel) == Next(s1);
      if IsExit(p, f) {
        ExecUnreachable(m, h, s1, fuel);
        StoppedExit(p, s1.store);
      } else if Running(p, s1.store) {
        assert Safe(p, s1);
        SafeCheck(p, h, s1, fuel);
      } else {
        StoppedCheck(p, h, s1, fuel);
      }
    }
  }

  lemma RunningTick(p: Plan, st: Store, i: Instr)
    ensures Running(p, st) ==> Running(p, Metered(st, i))
  {
  }

  lemma StoppedExit(p: Plan, st: Store)
    requires st.world.stop.Some? && st.meter.after == []
    ensures Stopped(p, Metered(st, Unreachable))
  {
  }

  // ------------------------------------------------------ the whole module

  lemma SafeTick(p: Plan, s: State, i: Instr)
    requires Safe(p, s)
    ensures Safe(p, Tick(s, i))
  {
  }

  lemma SafePlain(p: Plan, h: Host, i: Instr, s: State, fuel: nat)
    requires WellPlanned(p)
    requires Simple(i) && Latency.InstrConfined(p, i) && (i.RefFunc? ==> i.f > Imported(p))
    requires Safe(p, s)
    ensures OutSafe(p, Step(Instrument(p), h, i, s, fuel))
    ensures !Step(Instrument(p), h, i, s, fuel).Tail?
  {
    hide Instrument, WellPlanned, Exec, Safe, OutSafe;
    var t := Tick(s, i);
    SafeTick(p, s, i);
    if i.Load8? || i.Store8? || i.MemoryFill? || i.TableGet? || i.TableSet? || i.TableFill? {
      SafeMemory(p, i, t);
    } else {
      SafeValues(p, i, t);
    }
  }

  lemma SafeMemory(p: Plan, i: Instr, s: State)
    requires WellPlanned(p)
    requires i.Load8? || i.Store8? || i.MemoryFill? || i.TableGet? || i.TableSet? || i.TableFill?
    requires Safe(p, s)
    ensures var o := Plain(Instrument(p), i, s); OutSafe(p, o) && !o.Tail?
  {
    hide Instrument, WellPlanned;
  }

  lemma SafeValues(p: Plan, i: Instr, s: State)
    requires WellPlanned(p)
    requires Simple(i) && Latency.InstrConfined(p, i) && (i.RefFunc? ==> i.f > Imported(p))
    requires !(i.Load8? || i.Store8? || i.MemoryFill? || i.TableGet? || i.TableSet? || i.TableFill?)
    requires Safe(p, s)
    ensures var o := Plain(Instrument(p), i, s); OutSafe(p, o) && !o.Tail?
  {
    hide Instrument, WellPlanned;
  }

  ghost predicate Admitted(p: Plan, code: Code) {
    AllDeclared(p, code) && Latency.Confined(p, code)
  }

  ghost predicate InstrAdmitted(p: Plan, i: Instr) {
    InstrDeclared(p, i) && Latency.InstrConfined(p, i)
  }

  ghost predicate SafeCode(p: Plan, h: Host, x: nat, code: Code, operand: Option<u32>, s: State, fuel: nat)
    requires WellPlanned(p)
  {
    OutSafe(p, Exec(Instrument(p), h, Rewrite(p, x, code, operand), s, fuel))
  }

  ghost predicate SafeInstr(p: Plan, h: Host, x: nat, i: Instr, operand: Option<u32>, s: State, fuel: nat)
    requires WellPlanned(p)
  {
    OutSafe(p, Exec(Instrument(p), h, Expand(p, x, i, operand), s, fuel))
  }

  lemma {:induction false} SafeExec(p: Plan, h: Host, x: nat, code: Code, operand: Option<u32>, s: State, fuel: nat)
    requires WellPlanned(p) && Latency.Validated(p) && Halting(p.m, h)
    requires Admitted(p, code)
    requires Safe(p, s)
    ensures SafeCode(p, h, x, code, operand, s, fuel)
    decreases fuel, 1, code
  {
    hide Exec, Step, Safe, WellPlanned, Instrument, Expand, InstrDeclared, Latency.InstrConfined, Halting, Latency.Validated;
    var m := Instrument(p);
    match code
    case End =>
      ExecEnd(m, h, s, fuel);
    case Then(i, rest) =>
      SafeStep(p, h, x, i, operand, s, fuel);
      ExecCat(m, h, Expand(p, x, i, operand), Rewrite(p, x, rest, Operand(i)), s, fuel);
      var o := Exec(m, h, Expand(p, x, i, operand), s, fuel);
      if o.Next? {
        SafeExec(p, h, x, rest, Operand(i), o.s, fuel);
      }
  }

  lemma SafeStep(p: Plan, h: Host, x: nat, i: Instr, operand: Option<u32>, s: State, fuel: nat)
    requires WellPlanned(p) && Latency.Validated(p) && Halting(p.m, h)
    requires InstrAdmitted(p, i)
    requires Safe(p, s)
    ensures SafeInstr(p, h, x, i, operand, s, fuel)
    decreases fuel, 1, i, 2
  {
    hide Exec, Step, Safe, Instrument, WellPlanned, SafeInstr, Halting, Latency.Validated;
    match i
    case Block(_, _) => SafeBlock(p, h, x, i, operand, s, fuel);
    case If(_, _, _) => SafeIf(p, h, x, i, operand, s, fuel);
    case TryTable(_, _, _) => SafeBlock(p, h, x, i, operand, s, fuel);
    case Loop(_) => SafeLoop(p, h, x, i, operand, s, fuel);
    case Call(_) => SafeCallStep(p, h, x, i, operand, s, fuel);
    case ReturnCall(_) => SafeReturnCall(p, h, x, i, operand, s, fuel);
    case CallIndirect(_) => SafeIndirect(p, h, x, i, operand, s, fuel);
    case ReturnCallIndirect(_) => SafeIndirect(p, h, x, i, operand, s, fuel);
    case _ =>
      if i.Br? || i.BrIf? || i.Return? {
        SafeBranch(p, h, x, i, operand, s, fuel);
      } else {
        SafeSimple(p, h, x, i, operand, s, fuel);
      }
  }

  lemma SafeBranch(p: Plan, h: Host, x: nat, i: Instr, operand: Option<u32>, s: State, fuel: nat)
    requires WellPlanned(p)
    requires i.Br? || i.BrIf? || i.Return?
    requires Safe(p, s)
    ensures SafeInstr(p, h, x, i, operand, s, fuel)
  {
    hide Exec, Instrument, WellPlanned;
    ExecOne(Instrument(p), h, i, s, fuel);
  }

  lemma ReferenceAbove(p: Plan, f: nat)
    requires WellPlanned(p)
    requires Declared(p, f)
    ensures Reference(p, f) > Imported(p)
  {
    hide AllDeclared;
  }

  lemma SafeSimple(p: Plan, h: Host, x: nat, i: Instr, operand: Option<u32>, s: State, fuel: nat)
    requires WellPlanned(p) && Halting(p.m, h)
    requires Simple(i) && InstrAdmitted(p, i)
    requires Safe(p, s)
    ensures SafeInstr(p, h, x, i, operand, s, fuel)
  {
    hide Exec, Step, Instrument, WellPlanned, Plain, Safe, Charge, Halting;
    var m := Instrument(p);
    if Bulk(i) && !Small(i, operand) {
      var charge := Charge(p, x, ShiftFor(i));
      SafeCharge(p, h, s, x, ShiftFor(i), fuel);
      ExecCat(m, h, charge, Then(i, End), s, fuel);
      var o := Exec(m, h, charge, s, fuel);
      if o.Next? {
        ExecOne(m, h, i, o.s, fuel);
        SafePlain(p, h, i, o.s, fuel);
      }
    } else {
      var i' := if i.RefFunc? then RefFunc(Reference(p, i.f)) else i;
      if i.RefFunc? {
        ReferenceAbove(p, i.f);
      }
      ExecOne(m, h, i', s, fuel);
      SafePlain(p, h, i', s, fuel);
    }
  }

  lemma SafeUnlabel(p: Plan, o: Out, results: nat, base: seq<Value>)
    requires OutSafe(p, o) && Clean(p, base)
    ensures OutSafe(p, Unlabel(results, base, o))
  {
    hide Running, Stopped;
  }

  lemma SafeCatch(p: Plan, o: Out, handler: nat, base: seq<Value>)
    requires OutSafe(p, o) && Clean(p, base)
    ensures OutSafe(p, Catch(handler, base, o))
  {
    hide Running, Stopped;
  }

  lemma SafeBlock(p: Plan, h: Host, x: nat, i: Instr, operand: Option<u32>, s: State, fuel: nat)
    requires WellPlanned(p) && Latency.Validated(p) && Halting(p.m, h)
    requires i.Block? || i.TryTable?
    requires Admitted(p, i.body)
    requires Safe(p, s)
    ensures SafeInstr(p, h, x, i, operand, s, fuel)
    decreases fuel, 1, i, 0
  {
    hide Exec, Step, Instrument, WellPlanned, Admitted, Running, OutSafe, Halting, Latency.Validated, Unlabel, Catch;
    var m, body := Instrument(p), Rewrite(p, x, i.body, None);
    var i' := if i.Block? then Block(i.results, body) else TryTable(i.results, i.handler, body);
    var t := Tick(s, i');
    SafeTick(p, s, i');
    SafeExec(p, h, x, i.body, None, t, fuel);
    SafeUnlabel(p, Exec(m, h, body, t, fuel), i.results, t.stack);
    if i.TryTable? {
      SafeCatch(p, Unlabel(i.results, t.stack, Exec(m, h, body, t, fuel)), i.handler, t.stack);
    }
    ExecOne(m, h, i', s, fuel);
    StepBlock(m, h, i', s, fuel);
  }

  lemma SafeIf(p: Plan, h: Host, x: nat, i: Instr, operand: Option<u32>, s: State, fuel: nat)
    requires WellPlanned(p) && Latency.Validated(p) && Halting(p.m, h)
    requires i.If? && Admitted(p, i.thn) && Admitted(p, i.els)
    requires Safe(p, s)
    ensures SafeInstr(p, h, x, i, operand, s, fuel)
    decreases fuel, 1, i, 0
  {
    hide Exec, Step, Instrument, WellPlanned, Admitted, Running, Halting, Latency.Validated, Unlabel;
    var m := Instrument(p);
    var i' := If(i.results, Rewrite(p, x, i.thn, None), Rewrite(p, x, i.els, None));
    var t := Tick(s, i');
    SafeTick(p, s, i');
    ExecOne(m, h, i', s, fuel);
    StepIf(m, h, i', s, fuel);
    if |s.stack| > 0 && Top(s.stack).I32? {
      hide OutSafe;
      var t' := t.(stack := Under(s.stack, 1));
      var chosen := if Top(s.stack).n != 0 then i.thn else i.els;
      SafeExec(p, h, x, chosen, None, t', fuel);
      SafeUnlabel(p, Exec(m, h, Rewrite(p, x, chosen, None), t', fuel), i.results, t'.stack);
    }
  }

  lemma SafeBase(p: Plan, s: State, base: seq<Value>)
    requires Safe(p, s) && Clean(p, base)
    ensures Safe(p, s.(stack := base))
  {
  }

  /** The end of one iteration, or of the loop. */
  lemma SafeAround(p: Plan, o: Out, next: Out, more: bool)
    requires OutSafe(p, o)
    requires o.Jump? && o.l == 0 && more ==> OutSafe(p, next)
    ensures OutSafe(p, if !o.Jump? then o else if o.l > 0 then Jump(o.l - 1, o.s) else if !more then OutOfFuel(o.s) else next)
  {
    hide Safe, Clean, Stopped, Running;
  }

  lemma {:induction false} SafeRounds(p: Plan, h: Host, x: nat, i: Instr, i': Instr, s: State, fuel: nat)
    requires WellPlanned(p) && Latency.Validated(p) && Halting(p.m, h)
    requires i.Loop? && Admitted(p, i.body) && i' == Loop(Cat(Check(p), Rewrite(p, x, i.body, None)))
    requires Safe(p, s)
    ensures OutSafe(p, Step(Instrument(p), h, i', s, fuel))
    decreases fuel, 1, i, 0
  {
    assert Clean(p, s.stack);
    hide Exec, Step, Instrument, WellPlanned, Admitted, Safe, Check, Rewrite, Clean, Halting, Latency.Validated, OutSafe, Stopped;
    var m, body, t := Instrument(p), Rewrite(p, x, i.body, None), Tick(s, i');
    SafeTick(p, s, i');
    SafeCheck(p, h, t, fuel);
    ExecCat(m, h, Check(p), body, t, fuel);
    StepLoop(m, h, i', s, fuel);
    var c := Exec(m, h, Check(p), t, fuel);
    if c.Next? {
      SafeExec(p, h, x, i.body, None, c.s, fuel);
      var o := Exec(m, h, body, c.s, fuel);
      var next := o;
      if o.Jump? && o.l == 0 && fuel > 0 {
        JumpSafe(p, o);
        SafeBase(p, o.s, s.stack);
        SafeRounds(p, h, x, i, i', o.s.(stack := s.stack), fuel - 1);
        next := Step(m, h, i', o.s.(stack := s.stack), fuel - 1);
      }
      SafeAround(p, o, next, fuel > 0);
    } else {
      TrapSafe(p, c);
    }
  }

  lemma SafeLoop(p: Plan, h: Host, x: nat, i: Instr, operand: Option<u32>, s: State, fuel: nat)
    requires WellPlanned(p) && Latency.Validated(p) && Halting(p.m, h)
    requires i.Loop? && Admitted(p, i.body)
    requires Safe(p, s)
    ensures SafeInstr(p, h, x, i, operand, s, fuel)
    decreases fuel, 1, i, 1
  {
    hide Exec, Step, Instrument, WellPlanned, Admitted, Safe, Check, Rewrite, Halting, Latency.Validated, OutSafe;
    var i' := Loop(Cat(Check(p), Rewrite(p, x, i.body, None)));
    SafeRounds(p, h, x, i, i', s, fuel);
    ExecOne(Instrument(p), h, i', s, fuel);
  }

  lemma JumpSafe(p: Plan, o: Out)
    requires OutSafe(p, o) && o.Jump?
    ensures Safe(p, o.s)
  {
    hide Safe;
  }

  lemma TrapSafe(p: Plan, o: Out)
    requires o.Trap? && Stopped(p, o.s.store)
    ensures OutSafe(p, o)
  {
    hide Stopped, Running;
  }

  // ------------------------------------------------------------------ calls

  ghost predicate SafeFunction(p: Plan, h: Host, f: nat, args: seq<Value>, st: Store, fuel: nat)
    requires WellPlanned(p)
  {
    ResSafe(p, CallFunction(Instrument(p), h, f, args, st, fuel))
  }

  /** A call that runs no body: there is no such function, or no fuel. */
  lemma SafeRefused(p: Plan, h: Host, f: nat, args: seq<Value>, st: Store, fuel: nat)
    requires WellPlanned(p)
    requires f > Imported(p) && Running(p, st)
    requires f >= Imported(p) + 1 + |p.m.funcs| + |p.thunks| || fuel == 0
    ensures SafeFunction(p, h, f, args, st, fuel)
  {
    Latency.InstrumentedModule(p);
    hide Instrument, WellPlanned, Invoke, CallImport, Running;
  }

  lemma SafeEntered(p: Plan, h: Host, k: nat, args: seq<Value>, st: Store, fuel: nat)
    requires WellPlanned(p)
    requires k < |p.m.funcs| + |p.thunks| && fuel > 0
    requires SafeInvoked(p, h, k, args, st, fuel - 1)
    ensures SafeFunction(p, h, Imported(p) + 1 + k, args, st, fuel)
  {
    Latency.InstrumentedModule(p);
    hide Instrument, WellPlanned, Invoke, CallFunction, CallImport, ResSafe;
    CallUnfold(Instrument(p), h, Imported(p) + 1 + k, args, st, fuel);
  }

  lemma SafeCall(p: Plan, h: Host, f: nat, args: seq<Value>, st: Store, fuel: nat)
    requires WellPlanned(p) && Latency.Validated(p) && Halting(p.m, h)
    requires f > Imported(p)
    requires Clean(p, args) && Running(p, st)
    ensures SafeFunction(p, h, f, args, st, fuel)
    decreases fuel, 0
  {
    hide *;
    var k := f - (Imported(p) + 1);
    if k < |p.m.funcs| + |p.thunks| && fuel > 0 {
      SafeInvoke(p, h, k, args, st, fuel - 1);
      SafeEntered(p, h, k, args, st, fuel);
    } else {
      SafeRefused(p, h, f, args, st, fuel);
    }
  }

  ghost predicate SafeInvoked(p: Plan, h: Host, k: nat, args: seq<Value>, st: Store, fuel: nat)
    requires WellPlanned(p)
  {
    var m := Instrument(p);
    k < |m.funcs| ==> ResSafe(p, Invoke(m, h, k, args, st, fuel))
  }

  lemma RunningDepth(p: Plan, st: Store, d: nat)
    ensures Running(p, Exited'(st, d)) <==> Running(p, st)
    ensures Stopped(p, Exited'(st, d)) <==> Stopped(p, st)
    ensures Running(p, Enter(st)) <==> Running(p, st)
  {
  }

  lemma SafeEntry(p: Plan, m: Module, k: nat, args: seq<Value>, st: Store)
    requires k < |m.funcs|
    requires Clean(p, args) && Running(p, st)
    ensures Safe(p, Frame(m, k, args, st))
  {
  }

  ghost predicate SafeBody(p: Plan, h: Host, k: nat, s: State, fuel: nat)
    requires WellPlanned(p)
  {
    var m := Instrument(p);
    k < |m.funcs| ==> OutSafe(p, Exec(m, h, m.funcs[k].body, s, fuel))
  }

  lemma SafeAnyBody(p: Plan, h: Host, k: nat, s: State, fuel: nat)
    requires WellPlanned(p) && Latency.Validated(p) && Halting(p.m, h)
    requires Safe(p, s)
    ensures SafeBody(p, h, k, s, fuel)
    decreases fuel, 2, 1
  {
    hide *;
    if k < |p.m.funcs| {
      SafeFrame(p, h, k, s, fuel);
    } else {
      SafeThunkBody(p, h, k - |p.m.funcs|, s, fuel);
    }
  }

  lemma SafeThunkBody(p: Plan, h: Host, t: nat, s: State, fuel: nat)
    requires WellPlanned(p) && Halting(p.m, h)
    requires Safe(p, s)
    ensures SafeBody(p, h, |p.m.funcs| + t, s, fuel)
  {
    hide WellPlanned, Exec, Instrument, Halting, Safe, OutSafe, Thunk;
    Latency.InstrumentedModule(p);
    if t < |p.thunks| {
      Latency.ThunkAt(p, t);
      Latency.ThunksImported(p, t);
      SafeThunk(p, h, p.thunks[t], s, fuel);
    }
  }

  lemma SafeInvoke(p: Plan, h: Host, k: nat, args: seq<Value>, st: Store, fuel: nat)
    requires WellPlanned(p) && Latency.Validated(p) && Halting(p.m, h)
    requires Clean(p, args) && Running(p, st)
    ensures SafeInvoked(p, h, k, args, st, fuel)
    decreases fuel, 3
  {
    hide WellPlanned, Exec, Ended, Invoke, Instrument, Running, Halting, Latency.Validated, Frame, Safe, OutSafe;
    var m := Instrument(p);
    if k < |m.funcs| {
      var s := Frame(m, k, args, st);
      SafeEntry(p, m, k, args, st);
      SafeAnyBody(p, h, k, s, fuel);
      InvokeUnfold(m, h, k, args, st, fuel);
      SafeEnded(p, h, m.types[m.funcs[k].ty].results, st.meter.depth, Exec(m, h, m.funcs[k].body, s, fuel), fuel);
    }
  }

  lemma SafeEnded(p: Plan, h: Host, results: nat, depth: nat, o: Out, fuel: nat)
    requires WellPlanned(p) && Latency.Validated(p) && Halting(p.m, h)
    requires OutSafe(p, o)
    ensures ResSafe(p, Ended(Instrument(p), h, results, depth, o, fuel))
    decreases fuel, 1
  {
    hide WellPlanned, Instrument, CallFunction, Running, Stopped, Halting, Latency.Validated;
    if !o.Stuck? {
      RunningDepth(p, o.s.store, depth);
      if o.Tail? {
        SafeCall(p, h, o.f, o.args, Exited'(o.s.store, depth), fuel);
      }
    }
  }

  lemma SafeFrame(p: Plan, h: Host, k: nat, s: State, fuel: nat)
    requires WellPlanned(p) && Latency.Validated(p) && Halting(p.m, h)
    requires k < |p.m.funcs|
    requires Safe(p, s)
    ensures SafeBody(p, h, k, s, fuel)
    decreases fuel, 2, 0
  {
    var m, fn := Instrument(p), p.m.funcs[k];
    assert m.funcs[k] == RewriteFunc(p, fn);
    assert Admitted(p, fn.body);
    hide Exec, Instrument, WellPlanned, Check, Rewrite, Admitted, CallsGuest, Safe, Halting, Latency.Validated;
    var x := Scratch(p, fn);
    var code := Rewrite(p, x, fn.body, None);
    if CallsGuest(Imported(p), fn.body) {
      SafeCheck(p, h, s, fuel);
      ExecCat(m, h, Check(p), code, s, fuel);
      var c := Exec(m, h, Check(p), s, fuel);
      if c.Next? {
        SafeExec(p, h, x, fn.body, None, c.s, fuel);
      }
    } else {
      SafeExec(p, h, x, fn.body, None, s, fuel);
    }
  }

  lemma {:induction false} SafeForward(p: Plan, h: Host, from: nat, n: nat, f: nat, s: State, fuel: nat)
    requires WellPlanned(p) && Halting(p.m, h)
    requires f < Imported(p)
    requires from <= n
    requires Safe(p, s)
    ensures OutSafe(p, Exec(Instrument(p), h, Forward(from, n, ImportCall(p, f)), s, fuel))
    decreases n - from
  {
    hide Exec, Step, Instrument, WellPlanned, ImportCall, Safe, Halting;
    var m := Instrument(p);
    if from == n {
      SafeImportCall(p, h, f, s, fuel);
    } else {
      var rest := Forward(from + 1, n, ImportCall(p, f));
      ExecThen(m, h, LocalGet(from), rest, s, fuel);
      SafePlain(p, h, LocalGet(from), s, fuel);
      var o := Step(m, h, LocalGet(from), s, fuel);
      if o.Next? {
        SafeForward(p, h, from + 1, n, f, o.s, fuel);
      }
    }
  }

  lemma SafeThunk(p: Plan, h: Host, f: nat, s: State, fuel: nat)
    requires WellPlanned(p) && Halting(p.m, h)
    requires f < Imported(p)
    requires Safe(p, s)
    ensures OutSafe(p, Exec(Instrument(p), h, Thunk(p, f).body, s, fuel))
  {
    assert Wellformed(p.m);
    hide Exec, Instrument, WellPlanned, ImportCall, Forward, Safe, Halting;
    SafeForward(p, h, 0, p.m.types[p.m.imports[f].ty].params, f, s, fuel);
  }

  lemma SafeResume(p: Plan, s: State, r: Res)
    requires ResSafe(p, r)
    requires Clean(p, s.locals) && Clean(p, s.stack)
    ensures OutSafe(p, Resume(s, r)) && !Resume(s, r).Tail?
  {
    hide Running, Stopped;
  }

  lemma SafeArgs(p: Plan, s: State, n: nat)
    requires Safe(p, s) && n <= |s.stack|
    ensures Safe(p, Args(s, n).0) && Clean(p, Args(s, n).1)
  {
    hide Running;
  }

  lemma SafeCallStep(p: Plan, h: Host, x: nat, i: Instr, operand: Option<u32>, s: State, fuel: nat)
    requires WellPlanned(p) && Latency.Validated(p) && Halting(p.m, h)
    requires i.Call?
    requires Safe(p, s)
    ensures SafeInstr(p, h, x, i, operand, s, fuel)
    decreases fuel, 1, i, 0
  {
    hide Exec, Step, Instrument, WellPlanned, CallFunction, ImportCall, Running, Halting, Latency.Validated, Resume;
    var m, f := Instrument(p), i.f;
    if f < Imported(p) {
      SafeImportCall(p, h, f, s, fuel);
    } else {
      var t := Tick(s, Call(f + 1));
      SafeTick(p, s, Call(f + 1));
      ExecOne(m, h, Call(f + 1), s, fuel);
      StepCall(m, h, f + 1, s, fuel);
      if f + 1 < |m.imports| + |m.funcs| && |s.stack| >= TypeOf(m, f + 1).params {
        SafeArgs(p, t, TypeOf(m, f + 1).params);
        var (t', args) := Args(t, TypeOf(m, f + 1).params);
        SafeCall(p, h, f + 1, args, t'.store, fuel);
        SafeResume(p, t', CallFunction(m, h, f + 1, args, t'.store, fuel));
      }
    }
  }

  lemma SafeReturn(p: Plan, h: Host, s: State, fuel: nat)
    requires WellPlanned(p)
    requires Safe(p, s)
    ensures OutSafe(p, Exec(Instrument(p), h, Then(Return, End), s, fuel))
  {
    hide Exec, Instrument, WellPlanned;
    ExecOne(Instrument(p), h, Return, s, fuel);
  }

  lemma SafeReturnCall(p: Plan, h: Host, x: nat, i: Instr, operand: Option<u32>, s: State, fuel: nat)
    requires WellPlanned(p) && Halting(p.m, h)
    requires i.ReturnCall?
    requires Safe(p, s)
    ensures SafeInstr(p, h, x, i, operand, s, fuel)
  {
    hide Exec, Step, Instrument, WellPlanned, ImportCall, Running, Halting;
    var m, f := Instrument(p), i.f;
    if f < Imported(p) {
      SafeImportCall(p, h, f, s, fuel);
      var o := Exec(m, h, ImportCall(p, f), s, fuel);
      ExecCat(m, h, ImportCall(p, f), Then(Return, End), s, fuel);
      if o.Next? && !IsExit(p, f) {
        SafeReturn(p, h, o.s, fuel);
      }
    } else {
      ExecOne(m, h, ReturnCall(f + 1), s, fuel);
      StepReturnCall(m, h, f + 1, s, fuel);
      var t := Tick(s, ReturnCall(f + 1));
      SafeTick(p, s, ReturnCall(f + 1));
      if f + 1 < |m.imports| + |m.funcs| && |s.stack| >= TypeOf(m, f + 1).params {
        SafeArgs(p, t, TypeOf(m, f + 1).params);
      }
    }
  }

  lemma LookupAbove(p: Plan, m: Module, ty: nat, s: State)
    requires Wellformed(m)
    requires Clean(p, s.store.table)
    requires Lookup(m, ty, s).Found?
    ensures Lookup(m, ty, s).f > Imported(p)
  {
  }

  lemma SafeIndirect(p: Plan, h: Host, x: nat, i: Instr, operand: Option<u32>, s: State, fuel: nat)
    requires WellPlanned(p) && Latency.Validated(p) && Halting(p.m, h)
    requires i.CallIndirect? || i.ReturnCallIndirect?
    requires Safe(p, s)
    ensures SafeInstr(p, h, x, i, operand, s, fuel)
    decreases fuel, 1, i, 0
  {
    hide Exec, Step, Instrument, WellPlanned, CallFunction, Lookup, Halting, Latency.Validated, Resume;
    var m, t := Instrument(p), Tick(s, i);
    SafeTick(p, s, i);
    ExecOne(m, h, i, s, fuel);
    var target := Lookup(m, i.ty, t);
    if target.Found? {
      LookupAbove(p, m, i.ty, t);
      hide Running;
      StepIndirect(m, h, i, target.f, s, fuel);
      var t1, params := t.(stack := Under(t.stack, 1)), m.types[i.ty].params;
      assert Safe(p, t1);
      if |t1.stack| >= params {
        SafeArgs(p, t1, params);
        var (t', args) := Args(t1, params);
        if i.CallIndirect? {
          SafeCall(p, h, target.f, args, t'.store, fuel);
          SafeResume(p, t', CallFunction(m, h, target.f, args, t'.store, fuel));
        }
      }
    } else {
      StepNowhere(m, h, i, s, fuel);
    }
  }

  // ----------------------------------------------------------- main theorem

  /**
   * Under every halting host, every run of every function from a running
   * state is either never stopped, or traps: after the stop it executed only
   * the rest of a check, whatever handlers, tail calls or table entries the
   * guest had set up.
   */
  lemma StopContained(p: Plan, h: Host, k: nat, args: seq<Value>, st: Store, fuel: nat)
    requires WellPlanned(p) && Latency.Validated(p) && Halting(p.m, h)
    requires k < |Instrument(p).funcs|
    requires Clean(p, args) && Running(p, st)
    ensures var r := Invoke(Instrument(p), h, k, args, st, fuel);
            !r.Bad? ==>
              if r.store.world.stop.Some? then r.Trapped? && Stopped(p, r.store)
              else r.store.meter.after == []
  {
    hide WellPlanned, Invoke, Instrument, Latency.Validated, Halting, Clean;
    SafeInvoke(p, h, k, args, st, fuel);
  }
}
