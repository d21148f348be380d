/** What the injected sequences do when the instrumented module runs them. */
module Checks {
  import opened Prelude
  import opened Wasm
  import opened Rewriter

  /** The countdown global is there; validation gives it type i32. */
  ghost predicate HasCountdown(p: Plan, st: Store) {
    p.counter < |st.globals| && st.globals[p.counter].I32?
  }

  function Countdown(p: Plan, st: Store): u32
    requires HasCountdown(p, st)
  {
    st.globals[p.counter].n
  }

  function SetCountdown(p: Plan, st: Store, n: u32): Store
    requires p.counter < |st.globals|
  {
    st.(globals := st.globals[p.counter := I32(n)])
  }

  /** The code itself sets the countdown. */
  function Counted(p: Plan, st: Store, n: u32): Store
    requires p.counter < |st.globals|
  {
    SetCountdown(p, st, n).(meter := Spent(st.meter, st.globals[p.counter], I32(n)))
  }

  /** Account for one instruction in a store. */
  function Metered(st: Store, i: Instr): Store {
    st.(meter := Tock(st.meter, st.world.stop.Some?, i))
  }

  /** The world, countdown and measurements right after a poll. */
  function Polled(p: Plan, h: Host, st: Store): Store
    requires p.counter < |st.globals|
  {
    var a := h.poll(st.world);
    var st' := Metered(st, Call(Imported(p)));
    var st'' := st'.(world := a.world, meter := Restarted(st'.meter));
    if a.zero then SetCountdown(p, st'', 0) else st''
  }

  const stopInstr: Instr := If(0, Then(Unreachable, End), End)

  /** The poll's answer was nonzero. */
  function Declined(st: Store): Store {
    Metered(Metered(st, stopInstr), Unreachable)
  }

  /** The poll's answer was zero. */
  function Reset(p: Plan, st: Store): Store
    requires p.counter < |st.globals|
  {
    Counted(p, Metered(Metered(Metered(st, stopInstr), Const(p.interval)), GlobalSet(p.counter)), p.interval)
  }

  /** call $interrupt; if unreachable end; countdown := interval */
  function PollOutcome(p: Plan, h: Host, s: State): Out
    requires p.counter < |s.store.globals|
  {
    var st := Polled(p, h, s.store);
    if h.poll(s.store.world).answer != 0 then Trap(s.(store := Declined(st)))
    else Next(s.(store := Reset(p, st)))
  }

  lemma CounterOf(p: Plan)
    requires WellPlanned(p)
    ensures Instrument(p).counter == Some(p.counter)
  {
  }

  // ------------------------------------------------- one instruction each

  lemma RunGlobalGet(m: Module, h: Host, x: nat, rest: Code, s: State, fuel: nat)
    requires Wellformed(m)
    requires x < |s.store.globals|
    ensures Exec(m, h, Then(GlobalGet(x), rest), s, fuel)
         == Exec(m, h, rest, s.(stack := s.stack + [s.store.globals[x]], store := Metered(s.store, GlobalGet(x))), fuel)
  {
  }

  lemma RunGlobalSet(m: Module, h: Host, x: nat, rest: Code, s: State, base: seq<Value>, v: Value, fuel: nat)
    requires Wellformed(m)
    requires x < |s.store.globals|
    requires s.stack == base + [v]
    ensures Exec(m, h, Then(GlobalSet(x), rest), s, fuel)
         == Exec(m, h, rest, s.(stack := base,
                   store := SetGlobal(m, Metered(s.store, GlobalSet(x)), x, v)), fuel)
  {
    assert Under(s.stack, 1) == base;
  }

  lemma RunConst(m: Module, h: Host, n: u32, rest: Code, s: State, fuel: nat)
    requires Wellformed(m)
    ensures Exec(m, h, Then(Const(n), rest), s, fuel)
         == Exec(m, h, rest, s.(stack := s.stack + [I32(n)], store := Metered(s.store, Const(n))), fuel)
  {
  }

  lemma RunLocalGet(m: Module, h: Host, x: nat, rest: Code, s: State, fuel: nat)
    requires Wellformed(m)
    requires x < |s.locals|
    ensures Exec(m, h, Then(LocalGet(x), rest), s, fuel)
         == Exec(m, h, rest, s.(stack := s.stack + [s.locals[x]], store := Metered(s.store, LocalGet(x))), fuel)
  {
  }

  lemma RunLocalTee(m: Module, h: Host, x: nat, rest: Code, s: State, fuel: nat)
    requires Wellformed(m)
    requires x < |s.locals|
    requires |s.stack| > 0
    ensures Exec(m, h, Then(LocalTee(x), rest), s, fuel)
         == Exec(m, h, rest, s.(locals := s.locals[x := Top(s.stack)], store := Metered(s.store, LocalTee(x))), fuel)
  {
  }

  lemma RunEqz(m: Module, h: Host, rest: Code, s: State, base: seq<Value>, n: u32, fuel: nat)
    requires Wellformed(m)
    requires s.stack == base + [I32(n)]
    ensures Exec(m, h, Then(Eqz, rest), s, fuel)
         == Exec(m, h, rest, s.(stack := base + [I32(if n == 0 then 1 else 0)], store := Metered(s.store, Eqz)), fuel)
  {
    assert Under(s.stack, 1) == base;
  }

  lemma RunBinary(m: Module, h: Host, op: Operator, rest: Code, s: State, base: seq<Value>, a: u32, b: u32, fuel: nat)
    requires Wellformed(m)
    requires s.stack == base + [I32(a)] + [I32(b)]
    ensures Exec(m, h, Then(Binary(op), rest), s, fuel)
         == Exec(m, h, rest, s.(stack := base + [I32(Apply(op, a, b))], store := Metered(s.store, Binary(op))), fuel)
  {
    assert Under(s.stack, 2) == base;
    assert s.stack[|s.stack| - 2] == I32(a) && s.stack[|s.stack| - 1] == I32(b);
  }

  /** An `if` without results whose branches keep the stack. */
  lemma RunIf(m: Module, h: Host, thn: Code, els: Code, rest: Code, s: State, base: seq<Value>, n: u32, o: Out, fuel: nat)
    requires Wellformed(m)
    requires s.stack == base + [I32(n)]
    requires o == Exec(m, h, if n != 0 then thn else els, s.(stack := base, store := Metered(s.store, If(0, thn, els))), fuel)
    requires !o.Jump?
    ensures Exec(m, h, Then(If(0, thn, els), rest), s, fuel) == Bind(m, h, o, rest, fuel)
  {
    ExecThen(m, h, If(0, thn, els), rest, s, fuel);
    assert Under(s.stack, 1) == base;
  }

  lemma ExecEnd(m: Module, h: Host, s: State, fuel: nat)
    requires Wellformed(m)
    ensures Exec(m, h, End, s, fuel) == Next(s)
  {
  }

  lemma ExecUnreachable(m: Module, h: Host, s: State, fuel: nat)
    requires Wellformed(m)
    ensures Exec(m, h, Then(Unreachable, End), s, fuel) == Trap(s.(store := Metered(s.store, Unreachable)))
  {
  }

  lemma CallPoll(p: Plan, h: Host, s: State, fuel: nat)
    requires WellPlanned(p)
    requires HasCountdown(p, s.store)
    ensures Step(Instrument(p), h, Call(Imported(p)), s, fuel)
         == Next(s.(stack := s.stack + [I32(h.poll(s.store.world).answer)], store := Polled(p, h, s.store)))
  {
    var m, q := Instrument(p), Imported(p);
    assert m.imports[q] == Import(|p.m.types|, Poll);
    assert TypeOf(m, q) == FuncType(0, 1);
    var t := Tick(s, Call(q));
    assert Under(t.stack, 0) == t.stack;
    assert Last(t.stack, 0) == [];
  }

  lemma ExecPoll(p: Plan, h: Host, s: State, fuel: nat)
    requires WellPlanned(p)
    requires HasCountdown(p, s.store)
    ensures Exec(Instrument(p), h, PollAndReset(p), s, fuel) == PollOutcome(p, h, s)
  {
    var m := Instrument(p);
    hide Step, Exec;
    var set' := Then(Const(p.interval), Then(GlobalSet(p.counter), End));
    var a := h.poll(s.store.world).answer;
    var st := Polled(p, h, s.store);
    var s1 := s.(stack := s.stack + [I32(a)], store := st);
    var s2 := s.(store := Metered(st, stopInstr));
    CallPoll(p, h, s, fuel);
    ExecThen(m, h, Call(Imported(p)), Then(stopInstr, set'), s, fuel);
    var o := Exec(m, h, if a != 0 then Then(Unreachable, End) else End, s2, fuel);
    ExecEnd(m, h, s2, fuel);
    ExecUnreachable(m, h, s2, fuel);
    RunIf(m, h, Then(Unreachable, End), End, set', s1, s.stack, a, o, fuel);
    if a == 0 {
      var s3 := s2.(stack := s.stack + [I32(p.interval)], store := Metered(s2.store, Const(p.interval)));
      RunConst(m, h, p.interval, Then(GlobalSet(p.counter), End), s2, fuel);
      RunGlobalSet(m, h, p.counter, End, s3, s.stack, I32(p.interval), fuel);
      ExecEnd(m, h, s.(store := Reset(p, st)), fuel);
    }
  }

  // --------------------------------------------------------- checkSequence

  /** countdown := countdown - 1 */
  function Decremented(p: Plan, st: Store): Store
    requires HasCountdown(p, st)
  {
    var n := (Countdown(p, st) - 1) % MODULUS;
    Counted(p,
      Metered(Metered(Metered(Metered(st, GlobalGet(p.counter)), Const(1)), Binary(Sub)), GlobalSet(p.counter)), n)
  }

  function DecrementCode(p: Plan): Code {
    Then(GlobalGet(p.counter), Then(Const(1), Then(Binary(Sub), Then(GlobalSet(p.counter), End))))
  }

  lemma ExecDecrement(p: Plan, m: Module, h: Host, s: State, fuel: nat)
    requires Wellformed(m) && m.counter == Some(p.counter)
    requires HasCountdown(p, s.store)
    ensures Exec(m, h, DecrementCode(p), s, fuel) == Next(s.(store := Decremented(p, s.store)))
  {
    hide Step, Exec;
    var c, v := p.counter, s.store.globals[p.counter];
    var n := (v.n - 1) % MODULUS;
    var s1 := s.(stack := s.stack + [v], store := Metered(s.store, GlobalGet(c)));
    var s2 := s1.(stack := s1.stack + [I32(1)], store := Metered(s1.store, Const(1)));
    var s3 := s2.(stack := s.stack + [I32(n)], store := Metered(s2.store, Binary(Sub)));
    RunGlobalGet(m, h, c, Then(Const(1), Then(Binary(Sub), Then(GlobalSet(c), End))), s, fuel);
    RunConst(m, h, 1, Then(Binary(Sub), Then(GlobalSet(c), End)), s1, fuel);
    RunBinary(m, h, Sub, Then(GlobalSet(c), End), s2, s.stack, v.n, 1, fuel);
    RunGlobalSet(m, h, c, End, s3, s.stack, I32(n), fuel);
    ExecEnd(m, h, s.(store := Decremented(p, s.store)), fuel);
  }

  /** The store when the check's `if` has decided. */
  function Tested(p: Plan, st: Store): Store {
    Metered(Metered(Metered(st, GlobalGet(p.counter)), Eqz), If(0, PollAndReset(p), End))
  }

  function CheckOutcome(p: Plan, h: Host, s: State): Out
    requires HasCountdown(p, s.store)
  {
    var s' := s.(store := Tested(p, s.store));
    var o := if Countdown(p, s.store) != 0 then Next(s') else PollOutcome(p, h, s');
    if o.Next? then Next(o.s.(store := Decremented(p, o.s.store))) else o
  }

  /** global.get $countdown; i32.eqz */
  lemma ExecZeroTest(p: Plan, m: Module, h: Host, s: State, rest: Code, fuel: nat)
    requires Wellformed(m)
    requires HasCountdown(p, s.store)
    ensures
      var zero := if Countdown(p, s.store) == 0 then 1 else 0;
      Exec(m, h, Then(GlobalGet(p.counter), Then(Eqz, rest)), s, fuel)
      == Exec(m, h, rest, s.(stack := s.stack + [I32(zero)],
                store := Metered(Metered(s.store, GlobalGet(p.counter)), Eqz)), fuel)
  {
    hide Step, Exec;
    var n := Countdown(p, s.store);
    var s1 := s.(stack := s.stack + [I32(n)], store := Metered(s.store, GlobalGet(p.counter)));
    RunGlobalGet(m, h, p.counter, Then(Eqz, rest), s, fuel);
    RunEqz(m, h, rest, s1, s.stack, n, fuel);
  }

  /** The check is stack-neutral and touches only the countdown. */
  lemma ExecCheck(p: Plan, h: Host, s: State, fuel: nat)
    requires WellPlanned(p)
    requires HasCountdown(p, s.store)
    ensures Exec(Instrument(p), h, Check(p), s, fuel) == CheckOutcome(p, h, s)
  {
    var m := Instrument(p);
    hide Step, Exec, Instrument, PollOutcome, Decremented;
    var zero := if Countdown(p, s.store) == 0 then 1 else 0;
    var test := If(0, PollAndReset(p), End);
    var s2 := s.(stack := s.stack + [I32(zero)], store := Metered(Metered(s.store, GlobalGet(p.counter)), Eqz));
    var s3 := s.(store := Tested(p, s.store));
    ExecZeroTest(p, m, h, s, Then(test, DecrementCode(p)), fuel);
    ExecEnd(m, h, s3, fuel);
    ExecPoll(p, h, s3, fuel);
    PollKeeps(p, h, s3);
    var o := if zero == 0 then Next(s3) else PollOutcome(p, h, s3);
    RunIf(m, h, PollAndReset(p), End, DecrementCode(p), s2, s.stack, zero, o, fuel);
    if o.Next? {
      CounterOf(p);
      ExecDecrement(p, m, h, o.s, fuel);
    }
  }

  lemma PollKeeps(p: Plan, h: Host, s: State)
    requires HasCountdown(p, s.store)
    ensures var o := PollOutcome(p, h, s);
            && (o.Next? || o.Trap?)
            && o.s.locals == s.locals && o.s.stack == s.stack
            && HasCountdown(p, o.s.store)
            && (o.Next? ==> Countdown(p, o.s.store) == p.interval)
  {
  }

  // -------------------------------------------------------- chargeSequence

  /** countdown := countdown - ticks, for the size in the scratch local */
  function Subtracted(p: Plan, st: Store, scratch: nat, shift: u32, ticks: u32): Store
    requires HasCountdown(p, st)
  {
    var n := (Countdown(p, st) - ticks) % MODULUS;
    Counted(p,
      Metered(Metered(Metered(Metered(Metered(Metered(st,
        GlobalGet(p.counter)), LocalGet(scratch)), Const(shift)), Binary(ShrU)), Binary(Sub)), GlobalSet(p.counter)), n)
  }

  lemma ExecSubtract(p: Plan, m: Module, h: Host, s: State, scratch: nat, shift: u32, fuel: nat)
    requires Wellformed(m) && m.counter == Some(p.counter)
    requires HasCountdown(p, s.store)
    requires scratch < |s.locals| && s.locals[scratch].I32?
    ensures Exec(m, h, SubtractTicks(p, scratch, shift), s, fuel)
         == Next(s.(store := Subtracted(p, s.store, scratch, shift, Apply(ShrU, s.locals[scratch].n, shift))))
  {
    hide Step, Exec;
    var c, v, size := p.counter, s.store.globals[p.counter], s.locals[scratch];
    var ticks := Apply(ShrU, size.n, shift);
    var n := (v.n - ticks) % MODULUS;
    var s1 := s.(stack := s.stack + [v], store := Metered(s.store, GlobalGet(c)));
    var s2 := s1.(stack := s1.stack + [size], store := Metered(s1.store, LocalGet(scratch)));
    var s3 := s2.(stack := s2.stack + [I32(shift)], store := Metered(s2.store, Const(shift)));
    var s4 := s3.(stack := s1.stack + [I32(ticks)], store := Metered(s3.store, Binary(ShrU)));
    var s5 := s4.(stack := s.stack + [I32(n)], store := Metered(s4.store, Binary(Sub)));
    var t4 := Then(GlobalSet(c), End);
    var t3 := Then(Binary(Sub), t4);
    var t2 := Then(Binary(ShrU), t3);
    var t1 := Then(Const(shift), t2);
    RunGlobalGet(m, h, c, Then(LocalGet(scratch), t1), s, fuel);
    RunLocalGet(m, h, scratch, t1, s1, fuel);
    RunConst(m, h, shift, t2, s2, fuel);
    RunBinary(m, h, ShrU, t3, s3, s1.stack, size.n, shift, fuel);
    RunBinary(m, h, Sub, t4, s4, s.stack, v.n, ticks, fuel);
    RunGlobalSet(m, h, c, End, s5, s.stack, I32(n), fuel);
    ExecEnd(m, h, s.(store := Subtracted(p, s.store, scratch, shift, ticks)), fuel);
  }

  /** The store when the inner `if` of a charge has decided. */
  function Compared(p: Plan, st: Store, scratch: nat, shift: u32): Store {
    Metered(Metered(Metered(Metered(Metered(Metered(st,
      LocalGet(scratch)), Const(shift)), Binary(ShrU)), GlobalGet(p.counter)), Binary(GeU)),
      If(0, PollAndReset(p), SubtractTicks(p, scratch, shift)))
  }

  function LargeOutcome(p: Plan, h: Host, s: State, scratch: nat, shift: u32): Out
    requires HasCountdown(p, s.store)
    requires scratch < |s.locals| && s.locals[scratch].I32?
  {
    var ticks := Apply(ShrU, s.locals[scratch].n, shift);
    var s' := s.(store := Compared(p, s.store, scratch, shift));
    if ticks >= Countdown(p, s.store) then PollOutcome(p, h, s')
    else Next(s.(store := Subtracted(p, s'.store, scratch, shift, ticks)))
  }

  /** The comparison of the size's ticks with the countdown. */
  lemma ExecCompare(p: Plan, m: Module, h: Host, s: State, scratch: nat, shift: u32, rest: Code, fuel: nat)
    returns (st: Store)
    requires Wellformed(m)
    requires HasCountdown(p, s.store)
    requires scratch < |s.locals| && s.locals[scratch].I32?
    ensures st == Metered(Metered(Metered(Metered(Metered(s.store,
      LocalGet(scratch)), Const(shift)), Binary(ShrU)), GlobalGet(p.counter)), Binary(GeU))
    ensures
      var poll := if Apply(ShrU, s.locals[scratch].n, shift) >= Countdown(p, s.store) then 1 else 0;
      Exec(m, h, Then(LocalGet(scratch), Then(Const(shift), Then(Binary(ShrU),
        Then(GlobalGet(p.counter), Then(Binary(GeU), rest))))), s, fuel)
      == Exec(m, h, rest, s.(stack := s.stack + [I32(poll)], store := st), fuel)
  {
    hide Step, Exec;
    var c, v, size := p.counter, s.store.globals[p.counter], s.locals[scratch];
    var ticks := Apply(ShrU, size.n, shift);
    var s1 := s.(stack := s.stack + [size], store := Metered(s.store, LocalGet(scratch)));
    var s2 := s1.(stack := s1.stack + [I32(shift)], store := Metered(s1.store, Const(shift)));
    var s3 := s2.(stack := s.stack + [I32(ticks)], store := Metered(s2.store, Binary(ShrU)));
    var s4 := s3.(stack := s3.stack + [v], store := Metered(s3.store, GlobalGet(c)));
    var t3 := Then(Binary(GeU), rest);
    var t2 := Then(GlobalGet(c), t3);
    var t1 := Then(Binary(ShrU), t2);
    RunLocalGet(m, h, scratch, Then(Const(shift), t1), s, fuel);
    RunConst(m, h, shift, t1, s1, fuel);
    RunBinary(m, h, ShrU, t2, s2, s.stack, size.n, shift, fuel);
    RunGlobalGet(m, h, c, t3, s3, fuel);
    RunBinary(m, h, GeU, rest, s4, s.stack, ticks, v.n, fuel);
    st := Metered(s4.store, Binary(GeU));
  }

  lemma ExecLarge(p: Plan, h: Host, s: State, scratch: nat, shift: u32, fuel: nat)
    requires WellPlanned(p)
    requires HasCountdown(p, s.store)
    requires scratch < |s.locals| && s.locals[scratch].I32?
    ensures Exec(Instrument(p), h, LargeCharge(p, scratch, shift), s, fuel) == LargeOutcome(p, h, s, scratch, shift)
  {
    var m := Instrument(p);
    hide Step, Exec, Apply;
    var ticks := Apply(ShrU, s.locals[scratch].n, shift);
    var poll := if ticks >= Countdown(p, s.store) then 1 else 0;
    var test := If(0, PollAndReset(p), SubtractTicks(p, scratch, shift));
    var st := ExecCompare(p, m, h, s, scratch, shift, Then(test, End), fuel);
    var s6 := s.(store := Compared(p, s.store, scratch, shift));
    ExecPoll(p, h, s6, fuel);
    CounterOf(p);
    ExecSubtract(p, m, h, s6, scratch, shift, fuel);
    var o := LargeOutcome(p, h, s, scratch, shift);
    RunIf(m, h, PollAndReset(p), SubtractTicks(p, scratch, shift), End,
          s.(stack := s.stack + [I32(poll)], store := st), s.stack, poll, o, fuel);
    if o.Next? {
      ExecEnd(m, h, o.s, fuel);
    }
  }

  /** The size operand is kept in the scratch local, and the `if` has decided. */
  function Sized(p: Plan, s: State, scratch: nat, shift: u32): State
    requires shift == memoryChargeShift || shift == tableChargeShift
    requires |s.stack| > 0
    requires scratch < |s.locals|
  {
    s.(stack := Under(s.stack, 1),
       locals := s.locals[scratch := Top(s.stack)],
       store := Metered(Metered(Metered(Metered(s.store,
         LocalTee(scratch)), Const(Unit(shift))), Binary(GeU)), If(0, LargeCharge(p, scratch, shift), End)))
  }

  function Restored(s: State, scratch: nat, size: Value): State {
    s.(stack := s.stack + [size], store := Metered(s.store, LocalGet(scratch)))
  }

  function ChargeOutcome(p: Plan, h: Host, s: State, scratch: nat, shift: u32): Out
    requires HasCountdown(p, s.store)
    requires shift == memoryChargeShift || shift == tableChargeShift
    requires |s.stack| > 0 && Top(s.stack).I32?
    requires scratch < |s.locals|
  {
    var s' := Sized(p, s, scratch, shift);
    var o := if Top(s.stack).n >= Unit(shift) then LargeOutcome(p, h, s', scratch, shift) else Next(s');
    if o.Next? then Next(Restored(o.s, scratch, Top(s.stack))) else o
  }

  /** The comparison of the size with one tick. */
  lemma ExecSize(p: Plan, m: Module, h: Host, s: State, scratch: nat, shift: u32, rest: Code, fuel: nat)
    returns (st: Store)
    requires Wellformed(m)
    requires shift == memoryChargeShift || shift == tableChargeShift
    requires |s.stack| > 0 && Top(s.stack).I32?
    requires scratch < |s.locals|
    ensures st == Metered(Metered(Metered(s.store, LocalTee(scratch)), Const(Unit(shift))), Binary(GeU))
    ensures
      var large := if Top(s.stack).n >= Unit(shift) then 1 else 0;
      Exec(m, h, Then(LocalTee(scratch), Then(Const(Unit(shift)), Then(Binary(GeU), rest))), s, fuel)
      == Exec(m, h, rest, s.(stack := Under(s.stack, 1) + [I32(large)],
                             locals := s.locals[scratch := Top(s.stack)], store := st), fuel)
  {
    hide Step, Exec;
    var size, base := Top(s.stack), Under(s.stack, 1);
    var s1 := s.(locals := s.locals[scratch := size], store := Metered(s.store, LocalTee(scratch)));
    var s2 := s1.(stack := s1.stack + [I32(Unit(shift))], store := Metered(s1.store, Const(Unit(shift))));
    assert s.stack == base + [size];
    RunLocalTee(m, h, scratch, Then(Const(Unit(shift)), Then(Binary(GeU), rest)), s, fuel);
    RunConst(m, h, Unit(shift), Then(Binary(GeU), rest), s1, fuel);
    RunBinary(m, h, GeU, rest, s2, base, size.n, Unit(shift), fuel);
    st := Metered(s2.store, Binary(GeU));
  }

  lemma ExecRestore(m: Module, h: Host, s: State, scratch: nat, fuel: nat)
    requires Wellformed(m) && scratch < |s.locals|
    ensures Exec(m, h, Then(LocalGet(scratch), End), s, fuel) == Next(Restored(s, scratch, s.locals[scratch]))
  {
    hide Step, Exec;
    RunLocalGet(m, h, scratch, End, s, fuel);
    ExecEnd(m, h, Restored(s, scratch, s.locals[scratch]), fuel);
  }

  /** Either branch of the charge's first `if`. */
  lemma ExecSized(p: Plan, h: Host, s: State, scratch: nat, shift: u32, large: u32, fuel: nat)
    requires WellPlanned(p) && HasCountdown(p, s.store) && large <= 1
    requires scratch < |s.locals| && s.locals[scratch].I32?
    ensures var o := if large == 1 then LargeOutcome(p, h, s, scratch, shift) else Next(s);
            && o == Exec(Instrument(p), h, if large != 0 then LargeCharge(p, scratch, shift) else End, s, fuel)
            && (o.Next? || o.Trap?) && o.s.locals == s.locals && o.s.stack == s.stack
  {
    hide Step, Exec, Instrument, WellPlanned, LargeOutcome, LargeCharge;
    ExecEnd(Instrument(p), h, s, fuel);
    ExecLarge(p, h, s, scratch, shift, fuel);
    LargeKeepsLocals(p, h, s, scratch, shift);
  }

  lemma ExecCharge(p: Plan, h: Host, s: State, scratch: nat, shift: u32, fuel: nat)
    requires WellPlanned(p)
    requires HasCountdown(p, s.store)
    requires shift == memoryChargeShift || shift == tableChargeShift
    requires |s.stack| > 0 && Top(s.stack).I32?
    requires scratch < |s.locals|
    ensures Exec(Instrument(p), h, Charge(p, scratch, shift), s, fuel) == ChargeOutcome(p, h, s, scratch, shift)
  {
    var m := Instrument(p);
    hide Step, Exec, Instrument, WellPlanned, LargeOutcome, LargeCharge;
    var size, base := Top(s.stack), Under(s.stack, 1);
    var large := if size.n >= Unit(shift) then 1 else 0;
    var test, t3 := If(0, LargeCharge(p, scratch, shift), End), Then(LocalGet(scratch), End);
    var s4 := Sized(p, s, scratch, shift);
    var st := ExecSize(p, m, h, s, scratch, shift, Then(test, t3), fuel);
    var o := if large == 1 then LargeOutcome(p, h, s4, scratch, shift) else Next(s4);
    ExecSized(p, h, s4, scratch, shift, large, fuel);
    RunIf(m, h, LargeCharge(p, scratch, shift), End, t3,
          s4.(stack := base + [I32(large)], store := st), base, large, o, fuel);
    if o.Next? {
      ExecRestore(m, h, o.s, scratch, fuel);
    }
  }

  lemma LargeKeepsLocals(p: Plan, h: Host, s: State, scratch: nat, shift: u32)
    requires HasCountdown(p, s.store)
    requires scratch < |s.locals| && s.locals[scratch].I32?
    ensures var o := LargeOutcome(p, h, s, scratch, shift);
            (o.Next? || o.Trap?) && o.s.locals == s.locals && o.s.stack == s.stack
  {
  }

  lemma TicksAre(n: u32)
    ensures Apply(ShrU, n, memoryChargeShift) == n / 1024 && Apply(ShrU, n, tableChargeShift) == n / 16
  {
    hide Shift;
    ShiftDivides(n);
  }

  /** An operation goes uncharged exactly if its size is the literal right before it and comes to no ticks. */
  lemma SmallIsFree(i: Instr, before: Instr)
    requires Bulk(i)
    ensures Small(i, Operand(before)) <==> before.Const? && Apply(ShrU, before.n, ShiftFor(i)) == 0
    ensures i.MemoryFill? ==> (Small(i, Operand(before)) <==> before.Const? && before.n < 0x400)
    ensures i.TableFill? ==> (Small(i, Operand(before)) <==> before.Const? && before.n < 0x10)
  {
    if before.Const? {
      TicksAre(before.n);
    }
    hide Apply;
  }
}
