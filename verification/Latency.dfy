/**
 * How long a guest can run between two polls.
 *
 * Every instrumented run, under any host, polls at least once while it
 * executes `frame * (interval + depth + 1) + bulk` instructions, where `depth`
 * is the call nesting at the last poll, `frame` a static weight of the largest
 * function, and `bulk` the cost of one bulk operation over all of memory. So a
 * stretch without a poll is finite, recursion included. The proof is an
 * amortised one: each tick of the countdown pays for the code that may run
 * before the next one.
 */
module Latency {
  import opened Prelude
  import opened Wasm
  import opened Rewriter
  import opened Checks
  import Exhaustion

  // --------------------------------------------------------- static weights

  /** No path through a check, or through a charge, costs more. */
  const CHECK: nat := 7
  const CHARGE: nat := 17

  /** The forward code of a rewritten body; a guest call costs `leaf`. */
  function Weight(p: Plan, leaf: nat, code: Code): nat {
    match code
    case End => 0
    case Then(i, rest) => InstrWeight(p, leaf, i) + Weight(p, leaf, rest)
  }

  function InstrWeight(p: Plan, leaf: nat, i: Instr): nat {
    match i
    case Block(_, b) => 1 + Weight(p, leaf, b)
    case Loop(b) => 1 + CHECK + Weight(p, leaf, b)
    case If(_, t, e) => 1 + Weight(p, leaf, t) + Weight(p, leaf, e)
    case TryTable(_, _, b) => 1 + Weight(p, leaf, b)
    case Call(f) => if f >= Imported(p) then 1 + leaf else 1 + CHECK
    case ReturnCall(f) => if f >= Imported(p) then 1 + leaf else 2 + CHECK
    case CallIndirect(_) => 1 + leaf
    case ReturnCallIndirect(_) => 1 + leaf
    case _ => if Bulk(i) then CHARGE + 1 else 1
  }

  datatype Budget = Budget(p: Plan, frame: nat, leaf: nat, bulk: nat)

  ghost predicate Covers(b: Budget) {
    && WellPlanned(b.p)
    && CHECK <= b.leaf
    && (forall j | 0 <= j < |b.p.m.funcs| :: FrameCovered(b, b.p.m.funcs[j]))
    && (forall j | 0 <= j < |b.p.m.imports| :: b.p.m.types[b.p.m.imports[j].ty].params + 1 + CHECK <= b.leaf)
    && b.leaf <= b.frame
    && b.frame >= 1 + CHECK + CHARGE
  }

  /** A function with an entry check fits a frame; any other is a leaf. */
  ghost predicate FrameCovered(b: Budget, fn: Func) {
    && Weight(b.p, b.leaf, fn.body) <= b.frame
    && (!CallsGuest(Imported(b.p), fn.body) ==> Weight(b.p, b.leaf, fn.body) <= b.leaf)
    && Confined(b.p, fn.body)
  }

  /** Validated code never names the countdown, which is not one of its globals. */
  ghost predicate Confined(p: Plan, code: Code) {
    match code
    case End => true
    case Then(i, rest) => InstrConfined(p, i) && Confined(p, rest)
  }

  ghost predicate InstrConfined(p: Plan, i: Instr) {
    match i
    case GlobalSet(x) => x != p.counter
    case Block(_, b) => Confined(p, b)
    case Loop(b) => Confined(p, b)
    case If(_, t, e) => Confined(p, t) && Confined(p, e)
    case TryTable(_, _, b) => Confined(p, b)
    case _ => true
  }

  // ------------------------------------------------------------ the ledger

  function Cap(b: Budget, depth: nat): nat {
    Times(b.frame, b.p.interval + depth + 1) + b.bulk
  }

  /** Every stretch so far stayed within the cap of the depth where it began, and spent no more than the interval. */
  ghost predicate Kept(b: Budget, stretches: seq<Stretch>) {
    forall q <- stretches :: q.work <= Cap(b, q.depth) && q.ticks <= b.p.interval
  }

  lemma KeptMore(b: Budget, stretches: seq<Stretch>, q: Stretch)
    requires Kept(b, stretches) && q.work <= Cap(b, q.depth) && q.ticks <= b.p.interval
    ensures Kept(b, stretches + [q])
  {
  }

  /**
   * What ran since the last poll, what the countdown still allows and what is
   * `owed` to code already paid for fit the cap of the last poll's depth.
   */
  ghost predicate Paid(b: Budget, st: Store, owed: nat) {
    && HasCountdown(b.p, st)
    && st.meter.ticks + Countdown(b.p, st) <= b.p.interval
    && |st.memory| / 1024 <= b.bulk
    && |st.table| / 16 <= b.bulk
    && st.meter.work + Times(b.frame, Countdown(b.p, st)) + owed <= Cap(b, st.meter.pollDepth)
    && Kept(b, st.meter.stretches)
  }

  /** What a poll at this depth can still cover. */
  predicate Affordable(b: Budget, depth: nat, owed: nat) {
    owed <= Times(b.frame, depth + 1)
  }

  ghost predicate OutPaid(b: Budget, o: Out, owed: nat, depth: nat) {
    if o.Stuck? then true
    else
      && o.s.store.meter.depth == depth
      && Paid(b, o.s.store, if o.Tail? then owed + b.leaf else owed)
  }

  ghost predicate ResPaid(b: Budget, r: Res, owed: nat, depth: nat) {
    r.Bad? || (r.store.meter.depth == depth && Paid(b, r.store, owed))
  }

  lemma TimesGrows(k: nat, a: nat, b: nat)
    requires a <= b
    ensures Times(k, a) <= Times(k, b)
  {
    if a < b {
      TimesGrows(k, a, b - 1);
    }
  }

  lemma PaidLess(b: Budget, st: Store, owed: nat, less: nat)
    requires Paid(b, st, owed) && less <= owed
    ensures Paid(b, st, less)
  {
  }

  /** One instruction. */
  lemma PaidTick(b: Budget, st: Store, i: Instr, owed: nat)
    requires Paid(b, st, owed + 1)
    ensures Paid(b, Metered(st, i), owed)
  {
  }

  lemma PaidSpend(b: Budget, st: Store, amount: nat, owed: nat)
    requires Paid(b, st, owed + amount)
    ensures Paid(b, Spend(st, amount), owed)
  {
  }

  /** Ticks of the countdown pay for more code. */
  lemma PaidDown(b: Budget, st: Store, ticks: nat, owed: nat)
    requires Paid(b, st, owed)
    requires ticks <= Countdown(b.p, st)
    ensures Paid(b, Counted(b.p, st, Countdown(b.p, st) - ticks), owed + Times(b.frame, ticks))
  {
    TimesAdd(b.frame, Countdown(b.p, st) - ticks, ticks);
  }

  // ------------------------------------------------------------------ polls

  /** A poll is affordable for whatever is owed, plus one bulk operation. */
  lemma PaidPoll(b: Budget, h: Host, s: State, owed: nat)
    requires Paid(b, s.store, 1)
    requires b.frame >= 1 + CHECK + CHARGE
    requires Affordable(b, s.store.meter.depth, owed + 3)
    ensures var o := PollOutcome(b.p, h, s);
            && (o.Next? || o.Trap?)
            && o.s.store.meter.depth == s.store.meter.depth
            && (o.Next? ==> Paid(b, o.s.store, owed + b.bulk) && Countdown(b.p, o.s.store) == b.p.interval)
            && (o.Trap? ==> Paid(b, o.s.store, owed))
  {
    PaidCountdown(b, s.store, 1);
    hide Paid, Polled;
    var st, polled := s.store, Polled(b.p, h, s.store);
    PaidPolled(b, h, st, owed + 3);
    PaidCountdown(b, polled, owed + 3 + b.bulk);
    if h.poll(st.world).answer != 0 {
      PaidTick(b, polled, stopInstr, owed + 2 + b.bulk);
      PaidTick(b, Metered(polled, stopInstr), Unreachable, owed + 1 + b.bulk);
      PaidLess(b, Declined(polled), owed + 1 + b.bulk, owed);
    } else {
      PaidReset(b, polled, owed);
    }
  }

  /** Right after the poll, every price can be met again. */
  lemma PaidPolled(b: Budget, h: Host, st: Store, owed: nat)
    requires Paid(b, st, 1)
    requires Affordable(b, st.meter.depth, owed)
    ensures var st' := Polled(b.p, h, st);
            && Paid(b, st', owed + b.bulk)
            && st'.meter.depth == st'.meter.pollDepth == st.meter.depth
            && st'.meter.work == st'.meter.ticks == 0
  {
    PaidTick(b, st, Call(Imported(b.p)), 0);
    var polled := Polled(b.p, h, st);
    var d := st.meter.depth;
    TimesAdd(b.frame, b.p.interval, d + 1);
    TimesGrows(b.frame, Countdown(b.p, polled), b.p.interval);
    KeptMore(b, st.meter.stretches, Stretch(st.meter.work + 1, st.meter.ticks, st.meter.pollDepth));
  }

  lemma PaidReset(b: Budget, st: Store, owed: nat)
    requires HasCountdown(b.p, st)
    requires Paid(b, st, owed + 3 + b.bulk)
    requires st.meter.work == st.meter.ticks == 0 && st.meter.pollDepth == st.meter.depth
    requires Affordable(b, st.meter.depth, owed + 3)
    ensures Paid(b, Reset(b.p, st), owed + b.bulk)
    ensures Reset(b.p, st).meter.depth == st.meter.depth
  {
    PaidThree(b, st, stopInstr, Const(b.p.interval), GlobalSet(b.p.counter), owed + b.bulk);
    TimesAdd(b.frame, b.p.interval, st.meter.depth + 1);
  }

  /** Three instructions and the decision of the check's `if`. */
  lemma PaidTested(b: Budget, st: Store, owed: nat)
    requires Paid(b, st, owed + 3)
    ensures Paid(b, Tested(b.p, st), owed)
  {
    var s1 := Metered(st, GlobalGet(b.p.counter));
    PaidTick(b, st, GlobalGet(b.p.counter), owed + 2);
    PaidTick(b, s1, Eqz, owed + 1);
    PaidTick(b, Metered(s1, Eqz), If(0, PollAndReset(b.p), End), owed);
  }

  lemma PaidDecremented(b: Budget, st: Store, owed: nat)
    requires Paid(b, st, owed + 4)
    requires Countdown(b.p, st) >= 1
    ensures Paid(b, Decremented(b.p, st), owed + b.frame)
  {
    var s1 := Metered(st, GlobalGet(b.p.counter));
    var s2 := Metered(s1, Const(1));
    var s3 := Metered(s2, Binary(Sub));
    var s4 := Metered(s3, GlobalSet(b.p.counter));
    PaidTick(b, st, GlobalGet(b.p.counter), owed + 3);
    PaidTick(b, s1, Const(1), owed + 2);
    PaidTick(b, s2, Binary(Sub), owed + 1);
    PaidTick(b, s3, GlobalSet(b.p.counter), owed);
    PaidDown(b, s4, 1, owed);
    assert Times(b.frame, 1) == b.frame;
  }

  /** A check pays for a whole frame of code after it. */
  lemma LateCheck(b: Budget, h: Host, s: State, owed: nat, more: nat, fuel: nat)
    requires Covers(b)
    requires Paid(b, s.store, owed + CHECK)
    requires owed + CHECK <= more <= owed + b.frame
    requires Affordable(b, s.store.meter.depth, more)
    ensures
      var o := Exec(Instrument(b.p), h, Check(b.p), s, fuel);
      && (o.Next? || o.Trap?)
      && o.s.store.meter.depth == s.store.meter.depth
      && (o.Next? ==> o.s.stack == s.stack && Paid(b, o.s.store, more))
      && (o.Trap? ==> Paid(b, o.s.store, owed))
  {
    assert b.p.interval >= 1;
    hide Exec, Step, Instrument, WellPlanned, PollOutcome, Decremented;
    ExecCheck(b.p, h, s, fuel);
    var s' := s.(store := Tested(b.p, s.store));
    PaidTested(b, s.store, owed + 4);
    if Countdown(b.p, s.store) != 0 {
      PaidDecremented(b, s'.store, owed);
    } else {
      PaidPoll(b, h, s', more - 3);
      PollKeeps(b.p, h, s');
      var o := PollOutcome(b.p, h, s');
      if o.Next? {
        PaidDecremented(b, o.s.store, more - 7);
      }
    }
    DecrementedKeepsDepth(b.p, s.store);
  }

  lemma DecrementedKeepsDepth(p: Plan, st0: Store)
    ensures forall st: Store | HasCountdown(p, st) :: Decremented(p, st).meter.depth == st.meter.depth
  {
  }

  // ---------------------------------------------------------------- charges

  lemma PaidCompared(b: Budget, st: Store, scratch: nat, shift: u32, owed: nat)
    requires Paid(b, st, owed + 6)
    ensures Paid(b, Compared(b.p, st, scratch, shift), owed)
    ensures Compared(b.p, st, scratch, shift).meter.depth == st.meter.depth
  {
    var s1 := Metered(st, LocalGet(scratch));
    var s2 := Metered(s1, Const(shift));
    var s3 := Metered(s2, Binary(ShrU));
    var s4 := Metered(s3, GlobalGet(b.p.counter));
    var s5 := Metered(s4, Binary(GeU));
    PaidTick(b, st, LocalGet(scratch), owed + 5);
    PaidTick(b, s1, Const(shift), owed + 4);
    PaidTick(b, s2, Binary(ShrU), owed + 3);
    PaidTick(b, s3, GlobalGet(b.p.counter), owed + 2);
    PaidTick(b, s4, Binary(GeU), owed + 1);
    PaidTick(b, s5, If(0, PollAndReset(b.p), SubtractTicks(b.p, scratch, shift)), owed);
  }

  /** Three instructions that touch nothing but the measurements. */
  lemma PaidThree(b: Budget, st: Store, i: Instr, j: Instr, k: Instr, owed: nat)
    requires Paid(b, st, owed + 3)
    ensures
      var st' := Metered(Metered(Metered(st, i), j), k);
      && Paid(b, st', owed)
      && st'.meter.depth == st.meter.depth
      && st'.globals == st.globals
  {
    PaidTick(b, st, i, owed + 2);
    PaidTick(b, Metered(st, i), j, owed + 1);
    PaidTick(b, Metered(Metered(st, i), j), k, owed);
  }

  lemma PaidSubtracted(b: Budget, st: Store, scratch: nat, shift: u32, ticks: u32, owed: nat)
    requires Paid(b, st, owed + 6)
    requires ticks < Countdown(b.p, st)
    requires b.frame >= 1
    ensures Paid(b, Subtracted(b.p, st, scratch, shift, ticks), owed + ticks)
    ensures Subtracted(b.p, st, scratch, shift, ticks).meter.depth == st.meter.depth
  {
    hide Metered, Paid;
    assert HasCountdown(b.p, st) by { PaidCountdown(b, st, owed + 6); }
    var s3 := Metered(Metered(Metered(st, GlobalGet(b.p.counter)), LocalGet(scratch)), Const(shift));
    var s6 := Metered(Metered(Metered(s3, Binary(ShrU)), Binary(Sub)), GlobalSet(b.p.counter));
    PaidThree(b, st, GlobalGet(b.p.counter), LocalGet(scratch), Const(shift), owed + 3);
    PaidThree(b, s3, Binary(ShrU), Binary(Sub), GlobalSet(b.p.counter), owed);
    PaidDown(b, s6, ticks, owed);
    TimesAtLeast(b.frame, ticks);
    var st' := Subtracted(b.p, st, scratch, shift, ticks);
    assert st' == Counted(b.p, s6, Countdown(b.p, s6) - ticks);
    PaidLess(b, st', owed + Times(b.frame, ticks), owed + ticks);
  }

  lemma PaidCountdown(b: Budget, st: Store, owed: nat)
    requires Paid(b, st, owed)
    ensures HasCountdown(b.p, st)
  {
  }

  lemma TimesAtLeast(k: nat, n: nat)
    requires k >= 1
    ensures Times(k, n) >= n
  {
    if n > 0 {
      TimesAtLeast(k, n - 1);
    }
  }

  /** A charged size is paid for, or polled for, when memory could hold it. */
  lemma LateLarge(b: Budget, h: Host, s: State, scratch: nat, shift: u32, owed: nat)
    requires Covers(b)
    requires Paid(b, s.store, owed + 13)
    requires Affordable(b, s.store.meter.depth, owed + 4)
    requires scratch < |s.locals| && s.locals[scratch].I32?
    ensures
      var o := LargeOutcome(b.p, h, s, scratch, shift);
      var ticks := Apply(ShrU, s.locals[scratch].n, shift);
      && o.s.store.meter.depth == s.store.meter.depth
      && Paid(b, o.s.store, owed)
      && (o.Next? ==> Paid(b, o.s.store, owed + 1))
      && (o.Next? && ticks <= b.bulk ==> Paid(b, o.s.store, owed + 1 + ticks))
  {
    hide Apply, WellPlanned, PollOutcome, Compared, Subtracted;
    var ticks := Apply(ShrU, s.locals[scratch].n, shift);
    var s' := s.(store := Compared(b.p, s.store, scratch, shift));
    PaidCompared(b, s.store, scratch, shift, owed + 7);
    CompareKeepsCountdown(b.p, s.store, scratch, shift);
    if ticks >= Countdown(b.p, s.store) {
      PaidPoll(b, h, s', owed + 1);
    } else {
      PaidSubtracted(b, s'.store, scratch, shift, ticks, owed + 1);
    }
  }

  lemma CompareKeepsCountdown(p: Plan, st: Store, scratch: nat, shift: u32)
    requires HasCountdown(p, st)
    ensures HasCountdown(p, Compared(p, st, scratch, shift))
         && Countdown(p, Compared(p, st, scratch, shift)) == Countdown(p, st)
  {
  }

  lemma PaidSized(b: Budget, s: State, scratch: nat, shift: u32, owed: nat)
    requires shift == memoryChargeShift || shift == tableChargeShift
    requires |s.stack| > 0 && scratch < |s.locals|
    requires Paid(b, s.store, owed + 4)
    ensures Paid(b, Sized(b.p, s, scratch, shift).store, owed)
    ensures Sized(b.p, s, scratch, shift).store.meter.depth == s.store.meter.depth
  {
    var s1 := Metered(s.store, LocalTee(scratch));
    var s2 := Metered(s1, Const(Unit(shift)));
    var s3 := Metered(s2, Binary(GeU));
    PaidTick(b, s.store, LocalTee(scratch), owed + 3);
    PaidTick(b, s1, Const(Unit(shift)), owed + 2);
    PaidTick(b, s2, Binary(GeU), owed + 1);
    PaidTick(b, s3, If(0, LargeCharge(b.p, scratch, shift), End), owed);
  }

  /** The ticks of a size: KiB, or 16 table entries. */
  function TicksOf(n: u32, shift: u32): nat
    requires shift == memoryChargeShift || shift == tableChargeShift
  {
    n / Unit(shift)
  }

  lemma ShiftTicks(n: u32, shift: u32)
    requires shift == memoryChargeShift || shift == tableChargeShift
    ensures Apply(ShrU, n, shift) == TicksOf(n, shift)
  {
    ShiftDivides(n);
  }

  lemma LateCharge(b: Budget, h: Host, s: State, scratch: nat, shift: u32, owed: nat, fuel: nat)
    requires Covers(b)
    requires shift == memoryChargeShift || shift == tableChargeShift
    requires |s.stack| > 0 && Top(s.stack).I32? && scratch < |s.locals|
    requires Paid(b, s.store, owed + CHARGE)
    requires Affordable(b, s.store.meter.depth, owed + CHARGE)
    ensures
      var o := Exec(Instrument(b.p), h, Charge(b.p, scratch, shift), s, fuel);
      && (o.Next? || o.Trap?)
      && o.s.store.meter.depth == s.store.meter.depth
      && Paid(b, o.s.store, owed)
      && (o.Next? ==> o.s.stack == s.stack)
      && (o.Next? && TicksOf(Top(s.stack).n, shift) <= b.bulk ==> Paid(b, o.s.store, owed + TicksOf(Top(s.stack).n, shift)))
  {
    hide Exec, Step, Instrument, WellPlanned, LargeOutcome, Apply;
    ExecCharge(b.p, h, s, scratch, shift, fuel);
    var s' := Sized(b.p, s, scratch, shift);
    var size := Top(s.stack);
    var ticks := TicksOf(size.n, shift);
    assert Under(s.stack, 1) + [size] == s.stack;
    PaidSized(b, s, scratch, shift, owed + 13);
    ShiftTicks(size.n, shift);
    LargeKeepsLocals(b.p, h, s', scratch, shift);
    if size.n >= Unit(shift) {
      LateLarge(b, h, s', scratch, shift, owed);
      var o := LargeOutcome(b.p, h, s', scratch, shift);
      if o.Next? {
        PaidTick(b, o.s.store, LocalGet(scratch), owed);
        if ticks <= b.bulk {
          PaidTick(b, o.s.store, LocalGet(scratch), owed + ticks);
        }
      }
    } else {
      assert ticks == 0;
      PaidTick(b, s'.store, LocalGet(scratch), owed);
    }
  }

  /** A charge without an i32 to measure does not validate. */
  lemma ChargeStuck(p: Plan, h: Host, s: State, scratch: nat, shift: u32, fuel: nat)
    requires WellPlanned(p)
    requires shift == memoryChargeShift || shift == tableChargeShift
    requires !(|s.stack| > 0 && Top(s.stack).I32? && scratch < |s.locals|)
    ensures Exec(Instrument(p), h, Charge(p, scratch, shift), s, fuel).Stuck?
  {
    hide Instrument, WellPlanned, Exec;
    var m := Instrument(p);
    var r2 := Then(If(0, LargeCharge(p, scratch, shift), End), Then(LocalGet(scratch), End));
    var r1 := Then(Const(Unit(shift)), Then(Binary(GeU), r2));
    ExecThen(m, h, LocalTee(scratch), r1, s, fuel);
    if |s.stack| > 0 && scratch < |s.locals| {
      var s1 := s.(locals := s.locals[scratch := Top(s.stack)], store := Metered(s.store, LocalTee(scratch)));
      var s2 := s1.(stack := s1.stack + [I32(Unit(shift))], store := Metered(s1.store, Const(Unit(shift))));
      RunConst(m, h, Unit(shift), Then(Binary(GeU), r2), s1, fuel);
      ExecThen(m, h, Binary(GeU), r2, s2, fuel);
      assert s2.stack[|s2.stack| - 2] == Top(s.stack);
    }
  }

  // --------------------------------------------------- simple instructions

  ghost predicate BulkPaid(b: Budget, i: Instr, s: State, owed: nat) {
    Bulk(i) && |s.stack| > 0 && Top(s.stack).I32? && TicksOf(Top(s.stack).n, ShiftFor(i)) <= b.bulk ==>
      Paid(b, s.store, owed + 1 + TicksOf(Top(s.stack).n, ShiftFor(i)))
  }

  lemma PlainPaid(b: Budget, m: Module, i: Instr, t: State, owed: nat)
    requires m.counter == Some(b.p.counter)
    requires Simple(i) && !Bulk(i) && InstrConfined(b.p, i)
    requires Paid(b, t.store, owed)
    ensures OutPaid(b, Plain(m, i, t), owed, t.store.meter.depth)
  {
    hide Kept, Cap, Apply, Spent;
  }

  lemma BulkPlainPaid(b: Budget, m: Module, i: Instr, t: State, owed: nat)
    requires Bulk(i)
    requires Paid(b, t.store, owed)
    requires |t.stack| > 0 && Top(t.stack).I32? && TicksOf(Top(t.stack).n, ShiftFor(i)) <= b.bulk ==>
               Paid(b, t.store, owed + TicksOf(Top(t.stack).n, ShiftFor(i)))
    ensures OutPaid(b, Plain(m, i, t), owed, t.store.meter.depth)
  {
    var n := |t.stack|;
    if n >= 3 && t.stack[n - 1].I32? && t.stack[n - 3].I32? {
      var ticks := TicksOf(t.stack[n - 1].n, ShiftFor(i));
      var held := if i.MemoryFill? then |t.store.memory| else |t.store.table|;
      if t.stack[n - 3].n + t.stack[n - 1].n <= held {
        assert ticks <= b.bulk;
        PaidSpend(b, t.store, ticks, owed);
      }
    }
    hide Kept, Cap;
  }

  lemma LatePlain(b: Budget, h: Host, i: Instr, s: State, owed: nat, fuel: nat)
    requires Covers(b)
    requires Simple(i) && InstrConfined(b.p, i)
    requires Paid(b, s.store, owed + 1)
    requires BulkPaid(b, i, s, owed)
    ensures OutPaid(b, Step(Instrument(b.p), h, i, s, fuel), owed, s.store.meter.depth)
  {
    hide Instrument, WellPlanned, Exec, Step, Plain, Paid;
    var m, t := Instrument(b.p), Tick(s, i);
    assert t.store == Metered(s.store, i);
    CounterOf(b.p);
    StepSimple(m, h, i, s, fuel);
    PaidTick(b, s.store, i, owed);
    if Bulk(i) {
      if |s.stack| > 0 && Top(s.stack).I32? && TicksOf(Top(s.stack).n, ShiftFor(i)) <= b.bulk {
        PaidTick(b, s.store, i, owed + TicksOf(Top(s.stack).n, ShiftFor(i)));
      }
      BulkPlainPaid(b, m, i, t, owed);
    } else {
      PlainPaid(b, m, i, t, owed);
    }
  }

  // ---------------------------------------------------------------- imports

  lemma LateImport(b: Budget, m: Module, h: Host, f: nat, args: seq<Value>, st: Store, owed: nat)
    requires Wellformed(m) && m.counter == Some(b.p.counter)
    requires f < |m.imports|
    requires Paid(b, st, owed)
    requires Affordable(b, st.meter.depth, owed)
    ensures ResPaid(b, CallImport(m, h, f, args, st), owed, st.meter.depth)
  {
    var d := st.meter.depth;
    TimesAdd(b.frame, b.p.interval, d + 1);
    TimesGrows(b.frame, Countdown(b.p, st), b.p.interval);
    TimesGrows(b.frame, 0, Countdown(b.p, st));
  }

  lemma OutPaidLess(b: Budget, o: Out, owed: nat, less: nat, depth: nat)
    requires OutPaid(b, o, owed, depth)
    requires less <= owed
    ensures OutPaid(b, o, less, depth)
  {
  }

  lemma InstrumentedModule(p: Plan)
    requires WellPlanned(p)
    ensures var m := Instrument(p);
            && m.counter == Some(p.counter)
            && |m.imports| == Imported(p) + 1
            && |m.funcs| == |p.m.funcs| + |p.thunks|
  {
    hide AllDeclared;
  }

  /** A direct import call, and its check. */
  lemma LateImportCall(b: Budget, h: Host, f: nat, s: State, owed: nat, fuel: nat)
    requires Covers(b)
    requires f < Imported(b.p)
    requires Paid(b, s.store, owed + 1 + CHECK)
    requires Affordable(b, s.store.meter.depth, owed + 1 + CHECK)
    ensures OutPaid(b, Exec(Instrument(b.p), h, ImportCall(b.p, f), s, fuel), owed, s.store.meter.depth)
    ensures !Exec(Instrument(b.p), h, ImportCall(b.p, f), s, fuel).Tail?
  {
    hide Exec, CallImport, Paid, WellPlanned, Check, Instrument;
    var m := Instrument(b.p);
    InstrumentedModule(b.p);
    var d := s.store.meter.depth;
    ExecThen(m, h, Call(f), if IsExit(b.p, f) then Then(Unreachable, End) else Check(b.p), s, fuel);
    PaidTick(b, s.store, Call(f), owed + CHECK);
    var t := Tick(s, Call(f));
    assert t.store == Metered(s.store, Call(f));
    if |s.stack| >= TypeOf(m, f).params {
      var (t', args) := Args(t, TypeOf(m, f).params);
      LateImport(b, m, h, f, args, t'.store, owed + CHECK);
      var o := Step(m, h, Call(f), s, fuel);
      assert OutPaid(b, o, owed + CHECK, d) && !o.Tail?;
      if o.Next? {
        if IsExit(b.p, f) {
          ExecUnreachable(m, h, o.s, fuel);
          PaidTick(b, o.s.store, Unreachable, owed + CHECK - 1);
          PaidLess(b, Metered(o.s.store, Unreachable), owed + CHECK - 1, owed);
        } else {
          LateCheck(b, h, o.s, owed, owed + CHECK, fuel);
          var o' := Exec(m, h, Check(b.p), o.s, fuel);
          if o'.Next? {
            PaidLess(b, o'.s.store, owed + CHECK, owed);
          }
        }
      } else {
        OutPaidLess(b, o, owed + CHECK, owed, d);
      }
    }
  }

  // ------------------------------------------------------ the whole module

  /** The operand the pass saw is the one on the stack. */
  ghost predicate OperandOnTop(operand: Option<u32>, stack: seq<Value>) {
    operand.Some? ==> |stack| > 0 && Top(stack) == I32(operand.value)
  }

  ghost predicate LateCode(b: Budget, h: Host, x: nat, code: Code, operand: Option<u32>, s: State, owed: nat, fuel: nat)
    requires WellPlanned(b.p)
  {
    OutPaid(b, Exec(Instrument(b.p), h, Rewrite(b.p, x, code, operand), s, fuel), owed, s.store.meter.depth)
  }

  ghost predicate LateInstr(b: Budget, h: Host, x: nat, i: Instr, operand: Option<u32>, s: State, owed: nat, fuel: nat)
    requires WellPlanned(b.p)
  {
    OutPaid(b, Exec(Instrument(b.p), h, Expand(b.p, x, i, operand), s, fuel), owed, s.store.meter.depth)
  }

  lemma {:induction false} LateExec(b: Budget, h: Host, x: nat, code: Code, operand: Option<u32>,
                                    s: State, owed: nat, fuel: nat)
    requires Covers(b)
    requires Confined(b.p, code) && Weight(b.p, b.leaf, code) <= b.frame
    requires OperandOnTop(operand, s.stack)
    requires Paid(b, s.store, Weight(b.p, b.leaf, code) + owed)
    requires Affordable(b, s.store.meter.depth, Weight(b.p, b.leaf, code) + owed)
    ensures LateCode(b, h, x, code, operand, s, owed, fuel)
    decreases fuel, 1, code
  {
    var m := Instrument(b.p);
    hide Exec, Step, Paid, Covers, WellPlanned, Instrument, Expand, InstrWeight, InstrConfined;
    match code
    case End =>
      ExecEnd(m, h, s, fuel);
    case Then(i, rest) =>
      var w := Weight(b.p, b.leaf, rest);
      LateStep(b, h, x, i, operand, s, w + owed, fuel);
      ExecCat(m, h, Expand(b.p, x, i, operand), Rewrite(b.p, x, rest, Operand(i)), s, fuel);
      var o := Exec(m, h, Expand(b.p, x, i, operand), s, fuel);
      if o.Next? {
        OperandLeft(b.p, h, x, i, operand, s, fuel);
        LateExec(b, h, x, rest, Operand(i), o.s, owed, fuel);
      } else {
        OutPaidLess(b, o, w + owed, owed, s.store.meter.depth);
      }
  }

  lemma OperandLeft(p: Plan, h: Host, x: nat, i: Instr, operand: Option<u32>, s: State, fuel: nat)
    requires WellPlanned(p)
    requires Exec(Instrument(p), h, Expand(p, x, i, operand), s, fuel).Next?
    ensures OperandOnTop(Operand(i), Exec(Instrument(p), h, Expand(p, x, i, operand), s, fuel).s.stack)
  {
    hide Instrument, WellPlanned;
    if i.Const? {
      hide Exec;
      RunConst(Instrument(p), h, i.n, End, s, fuel);
      ExecEnd(Instrument(p), h, s.(stack := s.stack + [I32(i.n)], store := Metered(s.store, Const(i.n))), fuel);
    }
  }

  lemma LateStep(b: Budget, h: Host, x: nat, i: Instr, operand: Option<u32>, s: State, owed: nat, fuel: nat)
    requires Covers(b)
    requires InstrConfined(b.p, i) && InstrWeight(b.p, b.leaf, i) <= b.frame
    requires OperandOnTop(operand, s.stack)
    requires Paid(b, s.store, InstrWeight(b.p, b.leaf, i) + owed)
    requires Affordable(b, s.store.meter.depth, InstrWeight(b.p, b.leaf, i) + owed)
    ensures LateInstr(b, h, x, i, operand, s, owed, fuel)
    decreases fuel, 1, i, 1
  {
    hide Exec, Step, Paid, Instrument, WellPlanned, LateInstr;
    var m := Instrument(b.p);
    match i
    case Block(_, _) => LateBlock(b, h, x, i, operand, s, owed, fuel);
    case If(_, _, _) => LateIf(b, h, x, i, operand, s, owed, fuel);
    case TryTable(_, _, _) => LateBlock(b, h, x, i, operand, s, owed, fuel);
    case Loop(_) =>
      PaidLess(b, s.store, 1 + CHECK + Weight(b.p, b.leaf, i.body) + owed, 1 + CHECK + owed);
      LateLoop(b, h, x, i, operand, s, owed, fuel);
    case Call(_) => LateCallStep(b, h, x, i, operand, s, owed, fuel);
    case ReturnCall(_) => LateReturnCall(b, h, x, i, operand, s, owed, fuel);
    case CallIndirect(_) => LateIndirect(b, h, x, i, operand, s, owed, fuel);
    case ReturnCallIndirect(_) => LateIndirect(b, h, x, i, operand, s, owed, fuel);
    case _ =>
      if i.Br? || i.BrIf? || i.Return? {
        LateBranch(b, h, x, i, operand, s, owed, fuel);
      } else {
        LateSimple(b, h, x, i, operand, s, owed, fuel);
      }
  }

  lemma LateBranch(b: Budget, h: Host, x: nat, i: Instr, operand: Option<u32>, s: State, owed: nat, fuel: nat)
    requires Covers(b)
    requires i.Br? || i.BrIf? || i.Return?
    requires Paid(b, s.store, owed + 1)
    ensures LateInstr(b, h, x, i, operand, s, owed, fuel)
  {
    hide Exec, Paid, Instrument, WellPlanned;
    ExecOne(Instrument(b.p), h, i, s, fuel);
    PaidTick(b, s.store, i, owed);
    assert Tick(s, i).store == Metered(s.store, i);
  }

  lemma LateSimple(b: Budget, h: Host, x: nat, i: Instr, operand: Option<u32>, s: State, owed: nat, fuel: nat)
    requires Covers(b)
    requires Simple(i) && InstrConfined(b.p, i)
    requires OperandOnTop(operand, s.stack)
    requires Paid(b, s.store, InstrWeight(b.p, b.leaf, i) + owed)
    requires Affordable(b, s.store.meter.depth, InstrWeight(b.p, b.leaf, i) + owed)
    ensures LateInstr(b, h, x, i, operand, s, owed, fuel)
  {
    hide Exec, Step, Instrument, WellPlanned, Plain;
    var m := Instrument(b.p);
    if Bulk(i) {
      if Small(i, operand) {
        hide Paid;
        PaidLess(b, s.store, CHARGE + 1 + owed, owed + 1);
        ExecOne(m, h, i, s, fuel);
        LatePlain(b, h, i, s, owed, fuel);
      } else {
        LateCharged(b, h, x, i, s, owed, fuel);
      }
    } else {
      hide Paid;
      var i' := if i.RefFunc? then RefFunc(Reference(b.p, i.f)) else i;
      ExecOne(m, h, i', s, fuel);
      LatePlain(b, h, i', s, owed, fuel);
    }
  }

  lemma LateCharged(b: Budget, h: Host, x: nat, i: Instr, s: State, owed: nat, fuel: nat)
    requires Covers(b)
    requires Bulk(i)
    requires Paid(b, s.store, CHARGE + 1 + owed)
    requires Affordable(b, s.store.meter.depth, CHARGE + 1 + owed)
    ensures OutPaid(b, Exec(Instrument(b.p), h, Cat(Charge(b.p, x, ShiftFor(i)), Then(i, End)), s, fuel),
                    owed, s.store.meter.depth)
  {
    hide Exec, Step, Instrument, WellPlanned, Plain, Paid, Charge;
    var m, charge := Instrument(b.p), Charge(b.p, x, ShiftFor(i));
    ExecCat(m, h, charge, Then(i, End), s, fuel);
    if |s.stack| > 0 && Top(s.stack).I32? && x < |s.locals| {
      LateCharge(b, h, s, x, ShiftFor(i), owed + 1, fuel);
      var o := Exec(m, h, charge, s, fuel);
      if o.Next? {
        ExecOne(m, h, i, o.s, fuel);
        LatePlain(b, h, i, o.s, owed, fuel);
      } else {
        PaidLess(b, o.s.store, owed + 1, owed);
      }
    } else {
      ChargeStuck(b.p, h, s, x, ShiftFor(i), fuel);
    }
  }

  lemma OutPaidUnlabel(b: Budget, o: Out, owed: nat, depth: nat, results: nat, base: seq<Value>)
    requires OutPaid(b, o, owed, depth)
    ensures OutPaid(b, Unlabel(results, base, o), owed, depth)
  {
    hide Paid;
  }

  lemma OutPaidCatch(b: Budget, o: Out, owed: nat, depth: nat, handler: nat, base: seq<Value>)
    requires OutPaid(b, o, owed, depth)
    ensures OutPaid(b, Catch(handler, base, o), owed, depth)
  {
    hide Paid;
  }

  lemma LateBlock(b: Budget, h: Host, x: nat, i: Instr, operand: Option<u32>, s: State, owed: nat, fuel: nat)
    requires Covers(b)
    requires i.Block? || i.TryTable?
    requires Confined(b.p, i.body) && Weight(b.p, b.leaf, i.body) <= b.frame
    requires Paid(b, s.store, 1 + Weight(b.p, b.leaf, i.body) + owed)
    requires Affordable(b, s.store.meter.depth, 1 + Weight(b.p, b.leaf, i.body) + owed)
    ensures LateInstr(b, h, x, i, operand, s, owed, fuel)
    decreases fuel, 1, i, 0
  {
    hide Exec, Step, Paid, Instrument, WellPlanned, Confined, Weight, Unlabel, Catch;
    var m, body := Instrument(b.p), Rewrite(b.p, x, i.body, None);
    var i' := if i.Block? then Block(i.results, body) else TryTable(i.results, i.handler, body);
    var w, t := Weight(b.p, b.leaf, i.body), Tick(s, i');
    PaidTick(b, s.store, i', w + owed);
    assert t.store == Metered(s.store, i');
    LateExec(b, h, x, i.body, None, t, owed, fuel);
    var o := Exec(m, h, body, t, fuel);
    OutPaidUnlabel(b, o, owed, s.store.meter.depth, i.results, t.stack);
    if i.TryTable? {
      OutPaidCatch(b, Unlabel(i.results, t.stack, o), owed, s.store.meter.depth, i.handler, t.stack);
    }
    StepBlock(m, h, i', s, fuel);
    ExecOne(m, h, i', s, fuel);
  }

  lemma LateIf(b: Budget, h: Host, x: nat, i: Instr, operand: Option<u32>, s: State, owed: nat, fuel: nat)
    requires Covers(b)
    requires i.If?
    requires InstrConfined(b.p, i) && InstrWeight(b.p, b.leaf, i) <= b.frame
    requires Paid(b, s.store, InstrWeight(b.p, b.leaf, i) + owed)
    requires Affordable(b, s.store.meter.depth, InstrWeight(b.p, b.leaf, i) + owed)
    ensures LateInstr(b, h, x, i, operand, s, owed, fuel)
    decreases fuel, 1, i, 0
  {
    hide Exec, Paid, Instrument, WellPlanned, Confined, Weight;
    var m := Instrument(b.p);
    var i' := If(i.results, Rewrite(b.p, x, i.thn, None), Rewrite(b.p, x, i.els, None));
    var w, t := InstrWeight(b.p, b.leaf, i), Tick(s, i');
    PaidTick(b, s.store, i', w - 1 + owed);
    assert t.store == Metered(s.store, i');
    ExecOne(m, h, i', s, fuel);
    if |s.stack| > 0 && Top(s.stack).I32? {
      var t' := t.(stack := Under(s.stack, 1));
      var chosen := if Top(s.stack).n != 0 then i.thn else i.els;
      PaidLess(b, t.store, w - 1 + owed, Weight(b.p, b.leaf, chosen) + owed);
      LateExec(b, h, x, chosen, None, t', owed, fuel);
      OutPaidUnlabel(b, Exec(m, h, Rewrite(b.p, x, chosen, None), t', fuel), owed, s.store.meter.depth,
                     i.results, t'.stack);
    }
  }

  /** One more iteration needs no more than the reserve for its check. */
  lemma {:induction false} LateLoop(b: Budget, h: Host, x: nat, i: Instr, operand: Option<u32>, s: State, owed: nat, fuel: nat)
    requires Covers(b)
    requires i.Loop?
    requires Confined(b.p, i.body) && 1 + CHECK + Weight(b.p, b.leaf, i.body) <= b.frame
    requires Paid(b, s.store, 1 + CHECK + owed)
    requires Affordable(b, s.store.meter.depth, 1 + CHECK + Weight(b.p, b.leaf, i.body) + owed)
    ensures LateInstr(b, h, x, i, operand, s, owed, fuel)
    decreases fuel, 1, i, 0
  {
    hide Exec, Paid, Instrument, WellPlanned, Confined, Weight, Check;
    var m, body := Instrument(b.p), Rewrite(b.p, x, i.body, None);
    var i' := Loop(Cat(Check(b.p), body));
    var w, d, t := Weight(b.p, b.leaf, i.body), s.store.meter.depth, Tick(s, i');
    var reserve := owed + 1 + CHECK;
    PaidTick(b, s.store, i', CHECK + owed);
    assert t.store == Metered(s.store, i');
    LateCheck(b, h, t, owed, w + reserve, fuel);
    ExecCat(m, h, Check(b.p), body, t, fuel);
    ExecOne(m, h, i', s, fuel);
    var c := Exec(m, h, Check(b.p), t, fuel);
    if c.Next? {
      LateExec(b, h, x, i.body, None, c.s, reserve, fuel);
      var o := Exec(m, h, body, c.s, fuel);
      if o.Jump? && o.l == 0 && fuel > 0 {
        var s1 := o.s.(stack := t.stack);
        LateLoop(b, h, x, i, operand, s1, owed, fuel - 1);
        ExecOne(m, h, i', s1, fuel - 1);
      } else {
        OutPaidLess(b, o, reserve, owed, d);
      }
    }
  }

  // ------------------------------------------------------------------ calls

  ghost predicate LateFunction(b: Budget, h: Host, f: nat, args: seq<Value>, st: Store, owed: nat, fuel: nat)
    requires WellPlanned(b.p)
  {
    ResPaid(b, CallFunction(Instrument(b.p), h, f, args, st, fuel), owed, st.meter.depth)
  }

  lemma LateCall(b: Budget, h: Host, f: nat, args: seq<Value>, st: Store, owed: nat, fuel: nat)
    requires Covers(b)
    requires Paid(b, st, b.leaf + owed)
    requires Affordable(b, st.meter.depth, owed)
    ensures LateFunction(b, h, f, args, st, owed, fuel)
    decreases fuel, 0
  {
    hide Paid, Instrument, WellPlanned, Invoke, CallImport;
    var m := Instrument(b.p);
    InstrumentedModule(b.p);
    PaidLess(b, st, b.leaf + owed, owed);
    if f < |m.imports| {
      LateImport(b, m, h, f, args, st, owed);
    } else if f - |m.imports| < |m.funcs| && fuel > 0 {
      LateInvoke(b, h, f - |m.imports|, args, st, owed, fuel - 1);
    }
  }

  ghost predicate LateInvoked(b: Budget, h: Host, k: nat, args: seq<Value>, st: Store, owed: nat, fuel: nat)
    requires WellPlanned(b.p)
    requires k < |Instrument(b.p).funcs|
  {
    ResPaid(b, Invoke(Instrument(b.p), h, k, args, st, fuel), owed, st.meter.depth)
  }

  lemma LateInvoke(b: Budget, h: Host, k: nat, args: seq<Value>, st: Store, owed: nat, fuel: nat)
    requires Covers(b)
    requires k < |Instrument(b.p).funcs|
    requires Paid(b, st, b.leaf + owed)
    requires Affordable(b, st.meter.depth, owed)
    ensures LateInvoked(b, h, k, args, st, owed, fuel)
    decreases fuel, 3
  {
    hide Paid, WellPlanned, Exec, Ended, Instrument;
    var m := Instrument(b.p);
    InstrumentedModule(b.p);
    var s := Frame(m, k, args, st);
    PaidEnter(b, st, b.leaf + owed);
    assert Affordable(b, st.meter.depth + 1, b.frame + owed) by {
      TimesAdd(b.frame, st.meter.depth + 1, 1);
      assert Times(b.frame, 1) == b.frame;
    }
    if k < |b.p.m.funcs| {
      LateFrame(b, h, k, args, st, owed, fuel);
    } else {
      var f := b.p.thunks[k - |b.p.m.funcs|];
      ThunkAt(b.p, k - |b.p.m.funcs|);
      assert f < Imported(b.p) by { ThunksImported(b.p, k - |b.p.m.funcs|); }
      FrameStore(m, k, args, st);
      LateThunk(b, h, f, s, owed, fuel);
    }
    var o := Exec(m, h, m.funcs[k].body, s, fuel);
    LateEnded(b, h, m.types[m.funcs[k].ty].results, st.meter.depth, o, owed, fuel);
  }

  lemma PaidEnter(b: Budget, st: Store, owed: nat)
    requires Paid(b, st, owed)
    ensures Paid(b, Enter(st), owed)
  {
  }

  lemma LateEnded(b: Budget, h: Host, results: nat, depth: nat, o: Out, owed: nat, fuel: nat)
    requires Covers(b)
    requires OutPaid(b, o, owed, depth + 1)
    requires Affordable(b, depth, owed)
    ensures ResPaid(b, Ended(Instrument(b.p), h, results, depth, o, fuel), owed, depth)
    decreases fuel, 1
  {
    hide WellPlanned, Instrument, CallFunction, Cap;
    if o.Tail? {
      LateCall(b, h, o.f, o.args, Exited'(o.s.store, depth), owed, fuel);
    }
  }

  lemma {:induction false} CallsGuestWeight(p: Plan, leaf: nat, code: Code)
    requires CallsGuest(Imported(p), code)
    ensures Weight(p, leaf, code) >= leaf
  {
    match code
    case Then(i, rest) =>
      if InstrCallsGuest(Imported(p), i) {
        InstrCallsGuestWeight(p, leaf, i);
      } else {
        CallsGuestWeight(p, leaf, rest);
      }
  }

  lemma {:induction false} InstrCallsGuestWeight(p: Plan, leaf: nat, i: Instr)
    requires InstrCallsGuest(Imported(p), i)
    ensures InstrWeight(p, leaf, i) >= leaf
  {
    match i
    case Block(_, b) => CallsGuestWeight(p, leaf, b);
    case Loop(b) => CallsGuestWeight(p, leaf, b);
    case TryTable(_, _, b) => CallsGuestWeight(p, leaf, b);
    case If(_, t, e) =>
      if CallsGuest(Imported(p), t) { CallsGuestWeight(p, leaf, t); } else { CallsGuestWeight(p, leaf, e); }
    case _ =>
  }

  ghost predicate LateBody(b: Budget, h: Host, k: nat, args: seq<Value>, st: Store, owed: nat, fuel: nat)
    requires WellPlanned(b.p)
    requires k < |Instrument(b.p).funcs|
  {
    var m := Instrument(b.p);
    OutPaid(b, Exec(m, h, m.funcs[k].body, Frame(m, k, args, st), fuel), owed, st.meter.depth + 1)
  }

  /** A function body: its entry check pays for it, or its caller did. */
  lemma LateFrame(b: Budget, h: Host, k: nat, args: seq<Value>, st: Store, owed: nat, fuel: nat)
    requires Covers(b)
    requires k < |b.p.m.funcs| && k < |Instrument(b.p).funcs|
    requires Paid(b, Enter(st), b.leaf + owed)
    requires Affordable(b, st.meter.depth + 1, b.frame + owed)
    ensures LateBody(b, h, k, args, st, owed, fuel)
    decreases fuel, 2
  {
    var m, fn := Instrument(b.p), b.p.m.funcs[k];
    assert m.funcs[k] == RewriteFunc(b.p, fn);
    assert FrameCovered(b, fn);
    hide Exec, Paid, Instrument, WellPlanned, Check, Rewrite, Confined, Weight, CallsGuest;
    var w, x, s := Weight(b.p, b.leaf, fn.body), Scratch(b.p, fn), Frame(m, k, args, st);
    var code := Rewrite(b.p, x, fn.body, None);
    if CallsGuest(Imported(b.p), fn.body) {
      CallsGuestWeight(b.p, b.leaf, fn.body);
      PaidLess(b, s.store, b.leaf + owed, owed + CHECK);
      LateCheck(b, h, s, owed, w + owed, fuel);
      ExecCat(m, h, Check(b.p), code, s, fuel);
      var c := Exec(m, h, Check(b.p), s, fuel);
      if c.Next? {
        LateExec(b, h, x, fn.body, None, c.s, owed, fuel);
      }
    } else {
      PaidLess(b, s.store, b.leaf + owed, w + owed);
      LateExec(b, h, x, fn.body, None, s, owed, fuel);
    }
  }

  lemma {:induction false} LateForward(b: Budget, h: Host, from: nat, n: nat, f: nat, s: State, owed: nat, fuel: nat)
    requires Covers(b)
    requires f < Imported(b.p)
    requires from <= n
    requires Paid(b, s.store, n - from + owed + 1 + CHECK)
    requires Affordable(b, s.store.meter.depth, owed + 1 + CHECK)
    ensures OutPaid(b, Exec(Instrument(b.p), h, Forward(from, n, ImportCall(b.p, f)), s, fuel), owed, s.store.meter.depth)
    decreases n - from
  {
    hide Exec, Paid, Instrument, WellPlanned, ImportCall;
    var m := Instrument(b.p);
    if from == n {
      LateImportCall(b, h, f, s, owed, fuel);
    } else {
      var rest := Forward(from + 1, n, ImportCall(b.p, f));
      ExecThen(m, h, LocalGet(from), rest, s, fuel);
      PaidTick(b, s.store, LocalGet(from), n - from - 1 + owed + 1 + CHECK);
      assert Tick(s, LocalGet(from)).store == Metered(s.store, LocalGet(from));
      if from < |s.locals| {
        LateForward(b, h, from + 1, n, f, Step(m, h, LocalGet(from), s, fuel).s, owed, fuel);
      }
    }
  }

  lemma ThunkAt(p: Plan, t: nat)
    requires WellPlanned(p)
    requires t < |p.thunks|
    ensures |p.m.funcs| + t < |Instrument(p).funcs|
    ensures Instrument(p).funcs[|p.m.funcs| + t] == Thunk(p, p.thunks[t])
  {
    hide AllDeclared, RewriteFunc, Thunk;
  }

  lemma ThunksImported(p: Plan, t: nat)
    requires WellPlanned(p)
    requires t < |p.thunks|
    ensures p.thunks[t] < Imported(p)
  {
    hide AllDeclared;
  }

  lemma LateThunk(b: Budget, h: Host, f: nat, s: State, owed: nat, fuel: nat)
    requires Covers(b)
    requires f < Imported(b.p)
    requires Paid(b, s.store, b.leaf + owed)
    requires Affordable(b, s.store.meter.depth, b.frame + owed)
    ensures OutPaid(b, Exec(Instrument(b.p), h, Thunk(b.p, f).body, s, fuel), owed, s.store.meter.depth)
  {
    assert Wellformed(b.p.m);
    var n := b.p.m.types[b.p.m.imports[f].ty].params;
    assert n + 1 + CHECK <= b.leaf <= b.frame;
    hide Exec, Instrument, WellPlanned, Covers, ImportCall, OutPaid, Forward;
    LateForward(b, h, 0, n, f, s, owed, fuel) by {
      PaidLess(b, s.store, b.leaf + owed, n + owed + 1 + CHECK);
    }
  }

  lemma FrameStore(m: Module, k: nat, args: seq<Value>, st: Store)
    requires k < |m.funcs|
    ensures Frame(m, k, args, st).store == Enter(st)
    ensures Enter(st).meter.depth == st.meter.depth + 1
  {
  }

  lemma OutPaidResume(b: Budget, s: State, r: Res, owed: nat, depth: nat)
    requires ResPaid(b, r, owed, depth)
    ensures OutPaid(b, Resume(s, r), owed, depth)
  {
    hide Paid;
  }

  lemma LateCallStep(b: Budget, h: Host, x: nat, i: Instr, operand: Option<u32>, s: State, owed: nat, fuel: nat)
    requires Covers(b)
    requires i.Call?
    requires Paid(b, s.store, InstrWeight(b.p, b.leaf, i) + owed)
    requires Affordable(b, s.store.meter.depth, InstrWeight(b.p, b.leaf, i) + owed)
    ensures LateInstr(b, h, x, i, operand, s, owed, fuel)
    decreases fuel, 1, i, 0
  {
    hide Exec, Step, Paid, Instrument, WellPlanned, CallFunction, ImportCall;
    var m, f := Instrument(b.p), i.f;
    if f < Imported(b.p) {
      LateImportCall(b, h, f, s, owed, fuel);
    } else {
      var t := Tick(s, Call(f + 1));
      PaidTick(b, s.store, Call(f + 1), b.leaf + owed);
      assert t.store == Metered(s.store, Call(f + 1));
      ExecOne(m, h, Call(f + 1), s, fuel);
      StepCall(m, h, f + 1, s, fuel);
      if f + 1 < |m.imports| + |m.funcs| && |s.stack| >= TypeOf(m, f + 1).params {
        var (t', args) := Args(t, TypeOf(m, f + 1).params);
        LateCall(b, h, f + 1, args, t'.store, owed, fuel);
        OutPaidResume(b, t', CallFunction(m, h, f + 1, args, t'.store, fuel), owed, s.store.meter.depth);
      }
    }
  }

  lemma LateReturnImport(b: Budget, h: Host, x: nat, f: nat, operand: Option<u32>, s: State, owed: nat, fuel: nat)
    requires Covers(b)
    requires f < Imported(b.p)
    requires Paid(b, s.store, InstrWeight(b.p, b.leaf, ReturnCall(f)) + owed)
    requires Affordable(b, s.store.meter.depth, InstrWeight(b.p, b.leaf, ReturnCall(f)) + owed)
    ensures LateInstr(b, h, x, ReturnCall(f), operand, s, owed, fuel)
  {
    hide Exec, Paid, Instrument, WellPlanned, ImportCall;
    var m, d := Instrument(b.p), s.store.meter.depth;
    LateImportCall(b, h, f, s, owed + 1, fuel);
    var o := Exec(m, h, ImportCall(b.p, f), s, fuel);
    ExecCat(m, h, ImportCall(b.p, f), Then(Return, End), s, fuel);
    if o.Next? && !IsExit(b.p, f) {
      ExecOne(m, h, Return, o.s, fuel);
      PaidTick(b, o.s.store, Return, owed);
      assert Tick(o.s, Return).store == Metered(o.s.store, Return);
    } else {
      OutPaidLess(b, o, owed + 1, owed, d);
    }
  }

  lemma LateReturnCall(b: Budget, h: Host, x: nat, i: Instr, operand: Option<u32>, s: State, owed: nat, fuel: nat)
    requires Covers(b)
    requires i.ReturnCall?
    requires Paid(b, s.store, InstrWeight(b.p, b.leaf, i) + owed)
    requires Affordable(b, s.store.meter.depth, InstrWeight(b.p, b.leaf, i) + owed)
    ensures LateInstr(b, h, x, i, operand, s, owed, fuel)
  {
    hide Exec, Paid, Instrument, WellPlanned, ImportCall;
    var m, f := Instrument(b.p), i.f;
    if f < Imported(b.p) {
      LateReturnImport(b, h, x, f, operand, s, owed, fuel);
    } else {
      ExecOne(m, h, ReturnCall(f + 1), s, fuel);
      PaidTick(b, s.store, ReturnCall(f + 1), b.leaf + owed);
      assert Tick(s, ReturnCall(f + 1)).store == Metered(s.store, ReturnCall(f + 1));
    }
  }

  lemma LateIndirect(b: Budget, h: Host, x: nat, i: Instr, operand: Option<u32>, s: State, owed: nat, fuel: nat)
    requires Covers(b)
    requires i.CallIndirect? || i.ReturnCallIndirect?
    requires Paid(b, s.store, InstrWeight(b.p, b.leaf, i) + owed)
    requires Affordable(b, s.store.meter.depth, InstrWeight(b.p, b.leaf, i) + owed)
    ensures LateInstr(b, h, x, i, operand, s, owed, fuel)
    decreases fuel, 1, i, 0
  {
    hide Exec, Step, Paid, Instrument, WellPlanned, CallFunction, Lookup;
    var m, t, d := Instrument(b.p), Tick(s, i), s.store.meter.depth;
    PaidTick(b, s.store, i, b.leaf + owed);
    assert t.store == Metered(s.store, i);
    ExecOne(m, h, i, s, fuel);
    var target := Lookup(m, i.ty, t);
    if target.Found? {
      StepIndirect(m, h, i, target.f, s, fuel);
      var t1, params := t.(stack := Under(t.stack, 1)), m.types[i.ty].params;
      if |t1.stack| >= params && i.CallIndirect? {
        var (t', args) := Args(t1, params);
        LateCall(b, h, target.f, args, t'.store, owed, fuel);
        OutPaidResume(b, t', CallFunction(m, h, target.f, args, t'.store, fuel), owed, d);
      }
    } else {
      StepNowhere(m, h, i, s, fuel);
      PaidLess(b, t.store, b.leaf + owed, owed);
    }
  }

  // ------------------------------------------------------------ main theorem

  /** Every function body leaves the countdown alone, as validation ensures. */
  ghost predicate Validated(p: Plan) {
    forall j | 0 <= j < |p.m.funcs| :: Confined(p, p.m.funcs[j].body)
  }

  /** The heaviest of the first `n` functions that call no guest code. */
  function LeafMax(p: Plan, n: nat): nat
    requires n <= |p.m.funcs|
  {
    if n == 0 then CHECK
    else
      var body := p.m.funcs[n - 1].body;
      Max(LeafMax(p, n - 1), if CallsGuest(Imported(p), body) then 0 else Weight(p, 0, body))
  }

  /** The heaviest thunk of the first `n` imports. */
  function ThunkMax(p: Plan, n: nat): nat
    requires Wellformed(p.m)
    requires n <= |p.m.imports|
  {
    if n == 0 then 0 else Max(ThunkMax(p, n - 1), p.m.types[p.m.imports[n - 1].ty].params + 1 + CHECK)
  }

  function FrameMax(p: Plan, leaf: nat, n: nat): nat
    requires n <= |p.m.funcs|
  {
    if n == 0 then Max(leaf, 1 + CHECK + CHARGE)
    else Max(FrameMax(p, leaf, n - 1), Weight(p, leaf, p.m.funcs[n - 1].body))
  }

  function LeafWeight(p: Plan): nat
    requires Wellformed(p.m)
  {
    Max(LeafMax(p, |p.m.funcs|), ThunkMax(p, |p.m.imports|))
  }

  /** The weight of the largest frame of the module. */
  function FrameWeight(p: Plan): nat
    requires Wellformed(p.m)
  {
    FrameMax(p, LeafWeight(p), |p.m.funcs|)
  }

  lemma {:induction false} LeafMaxBounds(p: Plan, n: nat, j: nat)
    requires j < n <= |p.m.funcs|
    ensures CHECK <= LeafMax(p, n)
    ensures !CallsGuest(Imported(p), p.m.funcs[j].body) ==> Weight(p, 0, p.m.funcs[j].body) <= LeafMax(p, n)
  {
    hide Weight, CallsGuest;
    if j < n - 1 {
      LeafMaxBounds(p, n - 1, j);
    } else {
      LeafMaxLow(p, n - 1);
    }
  }

  lemma {:induction false} LeafMaxLow(p: Plan, n: nat)
    requires n <= |p.m.funcs|
    ensures CHECK <= LeafMax(p, n)
  {
    hide Weight, CallsGuest;
    if n > 0 {
      LeafMaxLow(p, n - 1);
    }
  }

  lemma {:induction false} ThunkMaxBounds(p: Plan, n: nat, j: nat)
    requires Wellformed(p.m)
    requires j < n <= |p.m.imports|
    ensures p.m.types[p.m.imports[j].ty].params + 1 + CHECK <= ThunkMax(p, n)
  {
    if j < n - 1 {
      ThunkMaxBounds(p, n - 1, j);
    }
  }

  lemma {:induction false} FrameMaxLow(p: Plan, leaf: nat, n: nat)
    requires n <= |p.m.funcs|
    ensures leaf <= FrameMax(p, leaf, n) && 1 + CHECK + CHARGE <= FrameMax(p, leaf, n)
  {
    hide Weight;
    if n > 0 {
      FrameMaxLow(p, leaf, n - 1);
    }
  }

  lemma {:induction false} FrameMaxBounds(p: Plan, leaf: nat, n: nat, j: nat)
    requires j < n <= |p.m.funcs|
    ensures Weight(p, leaf, p.m.funcs[j].body) <= FrameMax(p, leaf, n)
  {
    hide Weight;
    if j < n - 1 {
      FrameMaxBounds(p, leaf, n - 1, j);
    }
  }

  /** Code that calls no guest code weighs the same whatever a call costs. */
  lemma {:induction false} LeafWeightFixed(p: Plan, leaf: nat, code: Code)
    requires !CallsGuest(Imported(p), code)
    ensures Weight(p, leaf, code) == Weight(p, 0, code)
  {
    match code
    case End =>
    case Then(i, rest) =>
      LeafWeightFixed(p, leaf, rest);
      match i
      case Block(_, b) => LeafWeightFixed(p, leaf, b);
      case Loop(b) => LeafWeightFixed(p, leaf, b);
      case TryTable(_, _, b) => LeafWeightFixed(p, leaf, b);
      case If(_, t, e) =>
        LeafWeightFixed(p, leaf, t);
        LeafWeightFixed(p, leaf, e);
      case _ =>
  }

  function BudgetOf(p: Plan, bulk: nat): Budget
    requires Wellformed(p.m)
  {
    Budget(p, FrameWeight(p), LeafWeight(p), bulk)
  }

  lemma BudgetCovers(p: Plan, bulk: nat)
    requires WellPlanned(p) && Validated(p)
    ensures Covers(BudgetOf(p, bulk))
  {
    var b := BudgetOf(p, bulk);
    hide Weight, CallsGuest, Confined, AllDeclared, LeafMax, ThunkMax, FrameMax;
    forall j | 0 <= j < |p.m.funcs| ensures FrameCovered(b, p.m.funcs[j]) {
      LeafMaxBounds(p, |p.m.funcs|, j);
      FrameMaxBounds(p, b.leaf, |p.m.funcs|, j);
      if !CallsGuest(Imported(p), p.m.funcs[j].body) {
        LeafWeightFixed(p, b.leaf, p.m.funcs[j].body);
      }
    }
    forall j | 0 <= j < |p.m.imports| ensures p.m.types[p.m.imports[j].ty].params + 1 + CHECK <= b.leaf {
      ThunkMaxBounds(p, |p.m.imports|, j);
    }
    LeafMaxLow(p, |p.m.funcs|);
    FrameMaxLow(p, b.leaf, |p.m.funcs|);
  }

  /** A store as instantiation leaves it: nothing ran, the countdown is set. */
  ghost predicate Fresh(p: Plan, st: Store) {
    && HasCountdown(p, st)
    && Countdown(p, st) <= p.interval
    && st.meter == Meter(0, 0, 0, 0, [], [])
  }

  function BulkLimit(st: Store): nat {
    Max(|st.memory| / 1024, |st.table| / 16)
  }

  /** What can run in a stretch that began `depth` calls deep, but for the slack. */
  function StretchLimit(p: Plan, depth: nat): nat
    requires Wellformed(p.m)
  {
    FrameWeight(p) * (p.interval + depth + 1)
  }

  /**
   * What was spent since the last poll and what is left of the countdown are
   * at most the interval, and every stretch without a poll, the current one
   * too, is bounded by the depth where it began: what happened in the stretch
   * itself does not loosen its bound.
   */
  ghost predicate PollsInTime(p: Plan, st: Store, slack: nat)
    requires Wellformed(p.m)
  {
    && HasCountdown(p, st)
    && st.meter.ticks + Countdown(p, st) <= p.interval
    && st.meter.work <= StretchLimit(p, st.meter.pollDepth) + slack
    && forall q <- st.meter.stretches :: q.work <= StretchLimit(p, q.depth) + slack && q.ticks <= p.interval
  }

  lemma CapIs(b: Budget, depth: nat)
    requires Wellformed(b.p.m) && b == BudgetOf(b.p, b.bulk)
    ensures Cap(b, depth) == StretchLimit(b.p, depth) + b.bulk
  {
    hide FrameWeight, LeafWeight;
    TimesIsProduct(b.frame, b.p.interval + depth + 1);
  }

  lemma PaidInTime(b: Budget, st: Store, owed: nat)
    requires Wellformed(b.p.m) && b == BudgetOf(b.p, b.bulk)
    requires Paid(b, st, owed)
    ensures PollsInTime(b.p, st, b.bulk)
  {
    hide FrameWeight, LeafWeight, Cap, StretchLimit;
    CapIs(b, st.meter.pollDepth);
    forall q | q in st.meter.stretches ensures q.work <= StretchLimit(b.p, q.depth) + b.bulk && q.ticks <= b.p.interval {
      CapIs(b, q.depth);
    }
  }

  /** A store between two calls from outside, whatever ran before. */
  ghost predicate Settled(p: Plan, st: Store, slack: nat)
    requires Wellformed(p.m)
  {
    Paid(BudgetOf(p, slack), st, 0)
  }

  lemma SettledInTime(p: Plan, st: Store, slack: nat)
    requires Wellformed(p.m) && Settled(p, st, slack)
    ensures PollsInTime(p, st, slack)
  {
    PaidInTime(BudgetOf(p, slack), st, 0);
  }

  /**
   * Under every host, at every point of every run of any depth, the work since
   * the last poll is bounded by the interval and the depth of that poll alone.
   */
  lemma PollLatency(p: Plan, h: Host, k: nat, args: seq<Value>, st: Store, fuel: nat)
    requires WellPlanned(p) && Validated(p)
    requires k < |Instrument(p).funcs|
    requires Fresh(p, st)
    ensures var r := Invoke(Instrument(p), h, k, args, st, fuel);
            !r.Bad? ==> Settled(p, r.store, BulkLimit(st)) && PollsInTime(p, r.store, BulkLimit(st))
  {
    var b := BudgetOf(p, BulkLimit(st));
    BudgetCovers(p, BulkLimit(st));
    hide Invoke, Instrument, WellPlanned, FrameWeight, LeafWeight, Covers, Paid, PollsInTime, Settled;
    PaidFresh(b, st);
    OneCall(b, h, k, args, st, fuel);
  }

  /** A call whose leaf is paid for leaves a settled store. */
  lemma OneCall(b: Budget, h: Host, k: nat, args: seq<Value>, st: Store, fuel: nat)
    requires Covers(b) && WellPlanned(b.p) && Wellformed(b.p.m) && b == BudgetOf(b.p, b.bulk)
    requires k < |Instrument(b.p).funcs|
    requires Paid(b, st, b.leaf)
    ensures var r := Invoke(Instrument(b.p), h, k, args, st, fuel);
            !r.Bad? ==> Settled(b.p, r.store, b.bulk) && PollsInTime(b.p, r.store, b.bulk)
  {
    hide Invoke, Instrument, WellPlanned, FrameWeight, LeafWeight, Covers, Paid, PollsInTime;
    LateInvoke(b, h, k, args, st, 0, fuel);
    var r := Invoke(Instrument(b.p), h, k, args, st, fuel);
    if !r.Bad? {
      SettledInTime(b.p, r.store, b.bulk);
    }
  }

  lemma PaidFresh(b: Budget, st: Store)
    requires Covers(b) && Fresh(b.p, st) && b.bulk == BulkLimit(st)
    ensures Paid(b, st, b.leaf)
  {
    CoversLeaf(b);
    hide Covers, WellPlanned;
    TimesAdd(b.frame, b.p.interval, 1);
    TimesGrows(b.frame, Countdown(b.p, st), b.p.interval);
    assert Times(b.frame, 1) == b.frame;
  }

  lemma CoversLeaf(b: Budget)
    requires Covers(b)
    ensures b.leaf <= b.frame
  {
  }

  // --------------------------------------------------------- one call after another

  lemma KeptLoosely(b: Budget, c: Budget, stretches: seq<Stretch>)
    requires Kept(b, stretches) && c == b.(bulk := c.bulk) && b.bulk <= c.bulk
    ensures Kept(c, stretches)
  {
  }

  lemma PaidLoosely(b: Budget, c: Budget, st: Store, more: nat)
    requires Paid(b, st, 0) && c == b.(bulk := b.bulk + more)
    ensures Paid(c, st, more)
  {
    KeptLoosely(b, c, st.meter.stretches);
  }

  /** Each further call, as of _start after a start function, adds no more than one leaf to a stretch. */
  lemma LaterLatency(p: Plan, h: Host, k: nat, args: seq<Value>, st: Store, slack: nat, fuel: nat)
    requires WellPlanned(p) && Validated(p)
    requires k < |Instrument(p).funcs|
    requires Settled(p, st, slack)
    ensures var r := Invoke(Instrument(p), h, k, args, st, fuel);
            !r.Bad? ==> Settled(p, r.store, slack + LeafWeight(p)) && PollsInTime(p, r.store, slack + LeafWeight(p))
  {
    var c := BudgetOf(p, slack + LeafWeight(p));
    BudgetCovers(p, slack + LeafWeight(p));
    hide Invoke, Instrument, WellPlanned, FrameWeight, LeafWeight, Covers, Paid, PollsInTime;
    PaidLoosely(BudgetOf(p, slack), c, st, LeafWeight(p));
    hide Settled;
    OneCall(c, h, k, args, st, fuel);
  }

  // --------------------------------------------------------- runs without a poll

  /**
   * A run that consults no poll is finite, however it recurses: with more
   * fuel than a stretch can use, a call ends or polls.
   */
  lemma NoPollIsFinite(p: Plan, h: Host, k: nat, args: seq<Value>, st: Store, slack: nat, fuel: nat)
    requires WellPlanned(p) && Validated(p)
    requires k < |Instrument(p).funcs|
    requires Settled(p, st, slack)
    requires fuel > StretchLimit(p, st.meter.pollDepth) + slack + LeafWeight(p)
    ensures var r := Invoke(Instrument(p), h, k, args, st, fuel);
            r.NoFuel? ==> |r.store.meter.stretches| > |st.meter.stretches|
  {
    assert Wellformed(p.m);
    hide Invoke, WellPlanned, Instrument, FrameWeight, LeafWeight, Settled, StretchLimit;
    LaterLatency(p, h, k, args, st, slack, fuel);
    InstrumentedModule(p);
    Exhaustion.InvokeBurns(Instrument(p), h, k, args, st, fuel);
  }
}
