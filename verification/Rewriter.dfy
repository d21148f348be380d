/**
 * The interruption pass of sdk/typescript/rewriter.ts on structured code:
 * what `instrument` makes of a module once its sections are parsed.
 */
module Rewriter {
  import opened Prelude
  import opened Wasm

  /**
   * What the pass knows before it rewrites code: the original module, the
   * interval, the index of the countdown global (the first one after the
   * original globals), and the imports that escape as references, in the
   * order their thunks were assigned.
   */
  datatype Plan = Plan(m: Module, interval: u32, counter: nat, thunks: seq<nat>)

  function Imported(p: Plan): nat {
    |p.m.imports|
  }

  function IndexOf(s: seq<nat>, x: nat): (k: nat)
    requires x in s
    ensures k < |s| && s[k] == x
  {
    if s[0] == x then 0 else 1 + IndexOf(s[1..], x)
  }

  function ThunkIndex(p: Plan, k: nat): nat {
    Imported(p) + 1 + |p.m.funcs| + k
  }

  /** `reference`: taken as a value, an import is its thunk. */
  function Reference(p: Plan, f: nat): nat {
    if f >= Imported(p) then f + 1
    else if f in p.thunks then ThunkIndex(p, IndexOf(p.thunks, f))
    else f
  }

  ghost predicate Declared(p: Plan, f: nat) {
    f >= Imported(p) || f in p.thunks
  }

  ghost predicate WellPlanned(p: Plan) {
    && Wellformed(p.m)
    && 1 <= p.interval < 0x8000_0000
    && p.m.counter.None?
    && !p.m.exitReturns
    && (forall j | 0 <= j < |p.m.imports| :: p.m.imports[j].kind != Poll)
    && (forall k | 0 <= k < |p.thunks| :: p.thunks[k] < Imported(p))
    && (forall j | 0 <= j < |p.m.funcs| :: AllDeclared(p, p.m.funcs[j].body))
  }

  /** Every `ref.func` in the code names a declared function. */
  ghost predicate AllDeclared(p: Plan, code: Code) {
    match code
    case End => true
    case Then(i, rest) => InstrDeclared(p, i) && AllDeclared(p, rest)
  }

  ghost predicate InstrDeclared(p: Plan, i: Instr) {
    match i
    case RefFunc(f) => Declared(p, f)
    case Block(_, b) => AllDeclared(p, b)
    case Loop(b) => AllDeclared(p, b)
    case If(_, t, e) => AllDeclared(p, t) && AllDeclared(p, e)
    case TryTable(_, _, b) => AllDeclared(p, b)
    case _ => true
  }

  // -------------------------------------------------- injected sequences

  /** call $interrupt; if unreachable end; countdown := interval */
  function PollAndReset(p: Plan): Code {
    Then(Call(Imported(p)),
    Then(If(0, Then(Unreachable, End), End),
    Then(Const(p.interval),
    Then(GlobalSet(p.counter), End))))
  }

  /** `checkSequence` */
  function Check(p: Plan): Code {
    Then(GlobalGet(p.counter),
    Then(Eqz,
    Then(If(0, PollAndReset(p), End),
    Then(GlobalGet(p.counter),
    Then(Const(1),
    Then(Binary(Sub),
    Then(GlobalSet(p.counter), End)))))))
  }

  /** countdown := countdown - (size >> shift) */
  function SubtractTicks(p: Plan, scratch: nat, shift: u32): Code {
    Then(GlobalGet(p.counter),
    Then(LocalGet(scratch),
    Then(Const(shift),
    Then(Binary(ShrU),
    Then(Binary(Sub),
    Then(GlobalSet(p.counter), End))))))
  }

  function LargeCharge(p: Plan, scratch: nat, shift: u32): Code {
    Then(LocalGet(scratch),
    Then(Const(shift),
    Then(Binary(ShrU),
    Then(GlobalGet(p.counter),
    Then(Binary(GeU),
    Then(If(0, PollAndReset(p), SubtractTicks(p, scratch, shift)), End))))))
  }

  const memoryChargeShift: u32 := 10
  const tableChargeShift: u32 := 4

  function Unit(shift: u32): u32
    requires shift == memoryChargeShift || shift == tableChargeShift
  {
    if shift == memoryChargeShift then 1024 else 16
  }

  /** `chargeSequence` */
  function Charge(p: Plan, scratch: nat, shift: u32): Code
    requires shift == memoryChargeShift || shift == tableChargeShift
  {
    Then(LocalTee(scratch),
    Then(Const(Unit(shift)),
    Then(Binary(GeU),
    Then(If(0, LargeCharge(p, scratch, shift), End),
    Then(LocalGet(scratch), End)))))
  }

  // ------------------------------------------------------------ the pass

  predicate Bulk(i: Instr) {
    i.MemoryFill? || i.TableFill?
  }

  function ShiftFor(i: Instr): u32
    requires Bulk(i)
  {
    if i.MemoryFill? then memoryChargeShift else tableChargeShift
  }

  /** Sizes known to cost less than a tick go unpaid. */
  predicate Small(i: Instr, operand: Option<u32>)
    requires Bulk(i)
  {
    operand.Some? && operand.value < Unit(ShiftFor(i))
  }

  /** What the code rewrite remembers of the instruction it just copied. */
  function Operand(i: Instr): Option<u32> {
    if i.Const? then Some(i.n) else None
  }

  function IsExit(p: Plan, f: nat): bool {
    f < Imported(p) && p.m.imports[f].kind == Exit
  }

  /** A direct import call and the check, or the trap, that follows it. */
  function ImportCall(p: Plan, f: nat): Code {
    Then(Call(f), if IsExit(p, f) then Then(Unreachable, End) else Check(p))
  }

  function Rewrite(p: Plan, scratch: nat, code: Code, operand: Option<u32>): Code
    decreases code
  {
    match code
    case End => End
    case Then(i, rest) => Cat(Expand(p, scratch, i, operand), Rewrite(p, scratch, rest, Operand(i)))
  }

  /** What replaces one instruction. */
  function Expand(p: Plan, scratch: nat, i: Instr, operand: Option<u32>): Code
    decreases i
  {
    match i
    case Loop(b) => Then(Loop(Cat(Check(p), Rewrite(p, scratch, b, None))), End)
    case Block(r, b) => Then(Block(r, Rewrite(p, scratch, b, None)), End)
    case If(r, t, e) => Then(If(r, Rewrite(p, scratch, t, None), Rewrite(p, scratch, e, None)), End)
    case TryTable(r, l, b) => Then(TryTable(r, l, Rewrite(p, scratch, b, None)), End)
    case Call(f) => if f >= Imported(p) then Then(Call(f + 1), End) else ImportCall(p, f)
    case ReturnCall(f) =>
      if f >= Imported(p) then Then(ReturnCall(f + 1), End)
      else if IsExit(p, f) then ImportCall(p, f)
      else Cat(ImportCall(p, f), Then(Return, End))
    case RefFunc(f) => Then(RefFunc(Reference(p, f)), End)
    case _ =>
      if Bulk(i) && !Small(i, operand) then Cat(Charge(p, scratch, ShiftFor(i)), Then(i, End))
      else Then(i, End)
  }

  /** Whether the code calls guest code: a defined function, or anything indirectly. */
  predicate CallsGuest(n: nat, code: Code) {
    match code
    case End => false
    case Then(i, rest) => InstrCallsGuest(n, i) || CallsGuest(n, rest)
  }

  predicate InstrCallsGuest(n: nat, i: Instr) {
    match i
    case Call(f) => f >= n
    case ReturnCall(f) => f >= n
    case CallIndirect(_) => true
    case ReturnCallIndirect(_) => true
    case Block(_, b) => CallsGuest(n, b)
    case Loop(b) => CallsGuest(n, b)
    case If(_, t, e) => CallsGuest(n, t) || CallsGuest(n, e)
    case TryTable(_, _, b) => CallsGuest(n, b)
    case _ => false
  }

  /** Whether the code holds a charged bulk operation. */
  predicate Charged(code: Code, operand: Option<u32>) {
    match code
    case End => false
    case Then(i, rest) => InstrCharged(i, operand) || Charged(rest, Operand(i))
  }

  predicate InstrCharged(i: Instr, operand: Option<u32>) {
    match i
    case Block(_, b) => Charged(b, None)
    case Loop(b) => Charged(b, None)
    case If(_, t, e) => Charged(t, None) || Charged(e, None)
    case TryTable(_, _, b) => Charged(b, None)
    case _ => Bulk(i) && !Small(i, operand)
  }

  /** The added local comes after every other one. */
  function Scratch(p: Plan, fn: Func): nat
    requires fn.ty < |p.m.types|
  {
    p.m.types[fn.ty].params + fn.locals
  }

  function RewriteBody(p: Plan, fn: Func): Code
    requires fn.ty < |p.m.types|
  {
    var code := Rewrite(p, Scratch(p, fn), fn.body, None);
    if CallsGuest(Imported(p), fn.body) then Cat(Check(p), code) else code
  }

  function RewriteFunc(p: Plan, fn: Func): Func
    requires fn.ty < |p.m.types|
  {
    Func(fn.ty, fn.locals + (if Charged(fn.body, None) then 1 else 0), RewriteBody(p, fn))
  }

  /** local.get 0 .. local.get n-1, then `after` */
  function Forward(from: nat, n: nat, after: Code): Code
    requires from <= n
    decreases n - from
  {
    if from == n then after else Then(LocalGet(from), Forward(from + 1, n, after))
  }

  /** What a reference to import f becomes: a function that forwards its arguments. */
  function Thunk(p: Plan, f: nat): Func
    requires Wellformed(p.m)
    requires f < Imported(p)
  {
    var ty := p.m.imports[f].ty;
    Func(ty, 0, Forward(0, p.m.types[ty].params, ImportCall(p, f)))
  }

  /** The instrumented module, as it runs under the SDK's runtime. */
  function Instrument(p: Plan): (out: Module)
    requires WellPlanned(p)
    ensures Wellformed(out)
  {
    Module(
      p.m.types + [FuncType(0, 1)],
      p.m.imports + [Import(|p.m.types|, Poll)],
      RewriteFuncs(p),
      Some(p.counter),
      true)
  }

  function RewriteFuncs(p: Plan): (out: seq<Func>)
    requires WellPlanned(p)
    ensures |out| == |p.m.funcs| + |p.thunks|
    ensures forall j | 0 <= j < |p.m.funcs| :: out[j] == RewriteFunc(p, p.m.funcs[j])
    ensures forall k | 0 <= k < |p.thunks| :: out[|p.m.funcs| + k] == Thunk(p, p.thunks[k])
    ensures forall j | 0 <= j < |p.m.funcs| :: out[j].ty == p.m.funcs[j].ty < |p.m.types|
    ensures forall k | 0 <= k < |p.thunks| :: out[|p.m.funcs| + k].ty == p.m.imports[p.thunks[k]].ty < |p.m.types|
    ensures forall j | 0 <= j < |out| :: out[j].ty < |p.m.types|
  {
    seq(|p.m.funcs|, j requires 0 <= j < |p.m.funcs| => RewriteFunc(p, p.m.funcs[j]))
    + seq(|p.thunks|, k requires 0 <= k < |p.thunks| => Thunk(p, p.thunks[k]))
  }

  // ----------------------------------------------------------------- facts

  lemma InstrumentIs(p: Plan)
    requires WellPlanned(p)
    ensures var out := Instrument(p);
            && out.types == p.m.types + [FuncType(0, 1)] && out.imports == p.m.imports + [Import(|p.m.types|, Poll)]
            && out.funcs == RewriteFuncs(p)
  {
    hide WellPlanned, RewriteFuncs;
  }

  /** The instrumented module keeps every index, one higher for functions. */
  lemma InstrumentedTypes(p: Plan, j: nat)
    requires WellPlanned(p)
    requires j < |p.m.funcs| + |p.thunks|
    ensures
      var out := Instrument(p);
      && |out.imports| == Imported(p) + 1
      && |out.funcs| == |p.m.funcs| + |p.thunks|
      && TypeOf(out, Imported(p) + 1 + j)
         == if j < |p.m.funcs| then TypeOf(p.m, Imported(p) + j) else TypeOf(p.m, p.thunks[j - |p.m.funcs|])
  {
    InstrumentIs(p);
    RewrittenType(p, j);
    hide AllDeclared, RewriteFunc, Thunk, RewriteFuncs, Instrument;
  }

  lemma RewrittenType(p: Plan, j: nat)
    requires WellPlanned(p)
    requires j < |p.m.funcs| + |p.thunks|
    ensures RewriteFuncs(p)[j].ty == if j < |p.m.funcs| then p.m.funcs[j].ty else p.m.imports[p.thunks[j - |p.m.funcs|]].ty
  {
    hide AllDeclared, RewriteFunc, Thunk, RewriteFuncs;
    var d := |p.m.funcs|;
    if j >= d {
      assert RewriteFuncs(p)[d + (j - d)].ty == p.m.imports[p.thunks[j - d]].ty;
    }
  }

  /** A reference keeps the type of the function it named. */
  lemma ReferenceKeepsType(p: Plan, f: nat)
    requires WellPlanned(p)
    requires f < Imported(p) + |p.m.funcs|
    requires Declared(p, f)
    ensures var out := Instrument(p);
            && Imported(p) < Reference(p, f) < |out.imports| + |out.funcs|
            && TypeOf(out, Reference(p, f)) == TypeOf(p.m, f)
  {
    hide WellPlanned, Instrument, TypeOf;
    if f >= Imported(p) {
      InstrumentedTypes(p, f - Imported(p));
    } else {
      InstrumentedTypes(p, |p.m.funcs| + IndexOf(p.thunks, f));
    }
  }

  /** Distinct references stay distinct, so nothing is merged. */
  lemma ReferenceIsInjective(p: Plan, f: nat, g: nat)
    requires WellPlanned(p)
    requires f < Imported(p) + |p.m.funcs| && g < Imported(p) + |p.m.funcs|
    requires Declared(p, f) && Declared(p, g)
    requires Reference(p, f) == Reference(p, g)
    ensures f == g
  {
  }
}
