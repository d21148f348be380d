/**
 * The pass over a function body as the rewriter makes it: one loop over the
 * flat instructions, copying ranges between insertions. It computes exactly
 * the structured rewrite whose meaning is proved elsewhere.
 */
module FunctionBody {
  import opened Prelude
  import opened Wasm
  import opened Rewriter

  /** A decoded instruction of the binary format; blocks end with OpEnd. */
  datatype Op =
    | Leafy(i: Instr)
    | OpBlock(results: nat)
    | OpLoop
    | OpIf(results: nat)
    | OpElse
    | OpTry(results: nat, handler: nat)
    | OpEnd

  predicate Nested(i: Instr) {
    i.Block? || i.Loop? || i.If? || i.TryTable?
  }

  /** The binary format's order of a structured expression, without the last end. */
  function Flatten(code: Code): seq<Op>
    decreases code
  {
    match code
    case End => []
    case Then(i, rest) => FlattenInstr(i) + Flatten(rest)
  }

  function FlattenInstr(i: Instr): seq<Op>
    decreases i
  {
    match i
    case Block(r, b) => [OpBlock(r)] + Flatten(b) + [OpEnd]
    case Loop(b) => [OpLoop] + Flatten(b) + [OpEnd]
    case If(r, t, e) => [OpIf(r)] + Flatten(t) + [OpElse] + Flatten(e) + [OpEnd]
    case TryTable(r, l, b) => [OpTry(r, l)] + Flatten(b) + [OpEnd]
    case _ => [Leafy(i)]
  }

  lemma {:induction false} FlattenCat(a: Code, b: Code)
    ensures Flatten(Cat(a, b)) == Flatten(a) + Flatten(b)
    decreases a
  {
    hide FlattenInstr;
    if a.Then? {
      FlattenCat(a.rest, b);
      assert FlattenInstr(a.first) + (Flatten(a.rest) + Flatten(b)) == FlattenInstr(a.first) + Flatten(a.rest) + Flatten(b);
    } else {
      assert [] + Flatten(b) == Flatten(b);
    }
  }

  // ------------------------------------------------------- one instruction

  function OperandOf(op: Op): Option<u32> {
    if op.Leafy? then Operand(op.i) else None
  }

  /** What one instruction becomes, given the constant just before it. */
  function Emitted(p: Plan, scratch: nat, op: Op, operand: Option<u32>): seq<Op> {
    match op
    case OpLoop => [OpLoop] + Flatten(Check(p))
    case Leafy(i) => if Nested(i) then [op] else Flatten(Expand(p, scratch, i, operand))
    case _ => [op]
  }

  function Emit(p: Plan, scratch: nat, ops: seq<Op>, operand: Option<u32>): seq<Op>
    decreases |ops|
  {
    if ops == [] then [] else Emitted(p, scratch, ops[0], operand) + Emit(p, scratch, ops[1..], OperandOf(ops[0]))
  }

  /** The constant that precedes what follows the code. */
  function Trailing(code: Code, operand: Option<u32>): Option<u32> {
    match code
    case End => operand
    case Then(i, rest) => Trailing(rest, Operand(i))
  }

  lemma EmitCons(p: Plan, scratch: nat, op: Op, tail: seq<Op>, operand: Option<u32>)
    ensures Emit(p, scratch, [op] + tail, operand) == Emitted(p, scratch, op, operand) + Emit(p, scratch, tail, OperandOf(op))
  {
    assert ([op] + tail)[1..] == tail;
  }

  /** Emitting a flat expression is flattening its rewrite. */
  lemma {:induction false} EmitFlatten(p: Plan, scratch: nat, code: Code, tail: seq<Op>, operand: Option<u32>)
    ensures Emit(p, scratch, Flatten(code) + tail, operand)
         == Flatten(Rewrite(p, scratch, code, operand)) + Emit(p, scratch, tail, Trailing(code, operand))
    decreases code, 0
  {
    hide Emit, Emitted, Expand, FlattenInstr;
    match code
    case End =>
      assert [] + tail == tail;
      assert [] + Emit(p, scratch, tail, operand) == Emit(p, scratch, tail, operand);
    case Then(i, rest) =>
      var after := Flatten(rest) + tail;
      EmitInstr(p, scratch, i, after, operand);
      EmitFlatten(p, scratch, rest, tail, Operand(i));
      FlattenCat(Expand(p, scratch, i, operand), Rewrite(p, scratch, rest, Operand(i)));
      assert Flatten(code) + tail == FlattenInstr(i) + after;
      var head := Flatten(Expand(p, scratch, i, operand));
      var mid, end := Flatten(Rewrite(p, scratch, rest, Operand(i))), Emit(p, scratch, tail, Trailing(rest, Operand(i)));
      assert head + (mid + end) == head + mid + end;
  }

  lemma EmitInstr(p: Plan, scratch: nat, i: Instr, tail: seq<Op>, operand: Option<u32>)
    ensures Emit(p, scratch, FlattenInstr(i) + tail, operand)
         == Flatten(Expand(p, scratch, i, operand)) + Emit(p, scratch, tail, Operand(i))
    decreases i, 2
  {
    hide Emit, FlattenInstr, Flatten, Expand;
    match i
    case Block(r, b) => EmitBlock(p, scratch, r, b, tail, operand);
    case TryTable(r, l, b) => EmitTry(p, scratch, r, l, b, tail, operand);
    case Loop(b) => EmitLoop(p, scratch, b, tail, operand);
    case If(r, t, e) => EmitIf(p, scratch, r, t, e, tail, operand);
    case _ => EmitLeaf(p, scratch, i, tail, operand);
  }

  lemma EmitLeaf(p: Plan, scratch: nat, i: Instr, tail: seq<Op>, operand: Option<u32>)
    requires !Nested(i)
    ensures Emit(p, scratch, FlattenInstr(i) + tail, operand)
         == Flatten(Expand(p, scratch, i, operand)) + Emit(p, scratch, tail, Operand(i))
  {
    hide Emit, Emitted, Expand, Flatten;
    EmitCons(p, scratch, Leafy(i), tail, operand);
    LeafIs(p, scratch, i, operand);
  }

  lemma EmitBlock(p: Plan, scratch: nat, r: nat, b: Code, tail: seq<Op>, operand: Option<u32>)
    ensures Emit(p, scratch, FlattenInstr(Block(r, b)) + tail, operand)
         == Flatten(Expand(p, scratch, Block(r, b), operand)) + Emit(p, scratch, tail, None)
    decreases Block(r, b), 0
  {
    hide Emit, Emitted, Rewrite, Check;
    EmitNested(p, scratch, OpBlock(r), b, tail, operand);
    OnlyOne(Block(r, Rewrite(p, scratch, b, None)));
    Opening(p, scratch, OpBlock(r), operand);
  }

  lemma EmitTry(p: Plan, scratch: nat, r: nat, l: nat, b: Code, tail: seq<Op>, operand: Option<u32>)
    ensures Emit(p, scratch, FlattenInstr(TryTable(r, l, b)) + tail, operand)
         == Flatten(Expand(p, scratch, TryTable(r, l, b), operand)) + Emit(p, scratch, tail, None)
    decreases TryTable(r, l, b), 0
  {
    hide Emit, Emitted, Rewrite, Check;
    EmitNested(p, scratch, OpTry(r, l), b, tail, operand);
    OnlyOne(TryTable(r, l, Rewrite(p, scratch, b, None)));
    Opening(p, scratch, OpTry(r, l), operand);
  }

  lemma EmitIf(p: Plan, scratch: nat, r: nat, t: Code, e: Code, tail: seq<Op>, operand: Option<u32>)
    ensures Emit(p, scratch, FlattenInstr(If(r, t, e)) + tail, operand)
         == Flatten(Expand(p, scratch, If(r, t, e), operand)) + Emit(p, scratch, tail, None)
    decreases If(r, t, e), 1
  {
    hide Emit, Emitted, Rewrite, Check;
    EmitBranches(p, scratch, r, t, e, tail, operand);
    OnlyOne(If(r, Rewrite(p, scratch, t, None), Rewrite(p, scratch, e, None)));
  }

  lemma EmitLoop(p: Plan, scratch: nat, b: Code, tail: seq<Op>, operand: Option<u32>)
    ensures Emit(p, scratch, FlattenInstr(Loop(b)) + tail, operand)
         == Flatten(Expand(p, scratch, Loop(b), operand)) + Emit(p, scratch, tail, None)
    decreases Loop(b), 0
  {
    hide Emit, Emitted, Rewrite, Check;
    EmitNested(p, scratch, OpLoop, b, tail, operand);
    OnlyOne(Loop(Cat(Check(p), Rewrite(p, scratch, b, None))));
    FlattenCat(Check(p), Rewrite(p, scratch, b, None));
    LoopIs(p, scratch, operand);
    Regroup([OpLoop], Flatten(Check(p)), Flatten(Rewrite(p, scratch, b, None)));
  }

  lemma Opening(p: Plan, scratch: nat, op: Op, operand: Option<u32>)
    requires op.OpBlock? || op.OpTry?
    ensures Emitted(p, scratch, op, operand) == [op]
  {
  }

  lemma LeafIs(p: Plan, scratch: nat, i: Instr, operand: Option<u32>)
    requires !Nested(i)
    ensures Emitted(p, scratch, Leafy(i), operand) == Flatten(Expand(p, scratch, i, operand))
    ensures OperandOf(Leafy(i)) == Operand(i)
  {
    hide Expand, Flatten;
  }

  lemma OnlyOne(i: Instr)
    ensures Flatten(Then(i, End)) == FlattenInstr(i)
  {
    assert FlattenInstr(i) + [] == FlattenInstr(i);
  }

  /** A block: its opening, its rewritten body, its end. */
  lemma EmitNested(p: Plan, scratch: nat, opening: Op, b: Code, tail: seq<Op>, operand: Option<u32>)
    requires opening.OpBlock? || opening.OpTry? || opening.OpLoop?
    ensures Emit(p, scratch, [opening] + Flatten(b) + [OpEnd] + tail, operand)
         == Emitted(p, scratch, opening, operand) + Flatten(Rewrite(p, scratch, b, None)) + [OpEnd] + Emit(p, scratch, tail, None)
    decreases b, 1
  {
    hide Emit, Emitted, Rewrite, Flatten;
    var inner := Flatten(b) + ([OpEnd] + tail);
    assert [opening] + Flatten(b) + [OpEnd] + tail == [opening] + inner;
    EmitCons(p, scratch, opening, inner, operand);
    EmitFlatten(p, scratch, b, [OpEnd] + tail, None);
    EmitCons(p, scratch, OpEnd, tail, Trailing(b, None));
    Closing(p, scratch, OpEnd, Trailing(b, None));
    var x, y, z := Emitted(p, scratch, opening, operand), Flatten(Rewrite(p, scratch, b, None)), Emit(p, scratch, tail, None);
    assert x + (y + ([OpEnd] + z)) == x + y + [OpEnd] + z;
  }

  lemma Closing(p: Plan, scratch: nat, op: Op, operand: Option<u32>)
    requires op.OpEnd? || op.OpElse? || op.OpIf?
    ensures Emitted(p, scratch, op, operand) == [op] && OperandOf(op) == None
  {
  }

  lemma EmitBranches(p: Plan, scratch: nat, r: nat, t: Code, e: Code, tail: seq<Op>, operand: Option<u32>)
    ensures Emit(p, scratch, [OpIf(r)] + Flatten(t) + [OpElse] + Flatten(e) + [OpEnd] + tail, operand)
         == [OpIf(r)] + Flatten(Rewrite(p, scratch, t, None)) + [OpElse] + Flatten(Rewrite(p, scratch, e, None)) + [OpEnd]
            + Emit(p, scratch, tail, None)
    decreases If(r, t, e), 0
  {
    hide Emit, Emitted, Rewrite, Flatten;
    var last := [OpEnd] + tail;
    var els := Flatten(e) + last;
    var inner := Flatten(t) + ([OpElse] + els);
    assert [OpIf(r)] + Flatten(t) + [OpElse] + Flatten(e) + [OpEnd] + tail == [OpIf(r)] + inner;
    EmitCons(p, scratch, OpIf(r), inner, operand);
    EmitFlatten(p, scratch, t, [OpElse] + els, None);
    EmitCons(p, scratch, OpElse, els, Trailing(t, None));
    EmitFlatten(p, scratch, e, last, None);
    EmitCons(p, scratch, OpEnd, tail, Trailing(e, None));
    Closing(p, scratch, OpIf(r), operand);
    Closing(p, scratch, OpElse, Trailing(t, None));
    Closing(p, scratch, OpEnd, Trailing(e, None));
    var x, y, z := Flatten(Rewrite(p, scratch, t, None)), Flatten(Rewrite(p, scratch, e, None)), Emit(p, scratch, tail, None);
    assert [OpIf(r)] + (x + ([OpElse] + (y + ([OpEnd] + z)))) == [OpIf(r)] + x + [OpElse] + y + [OpEnd] + z;
  }

  // ---------------------------------------------------------------- the flags

  predicate GuestCall(n: nat, op: Op) {
    op.Leafy? && !Nested(op.i) && InstrCallsGuest(n, op.i)
  }

  predicate AnyGuestCall(n: nat, ops: seq<Op>) {
    exists j :: 0 <= j < |ops| && GuestCall(n, ops[j])
  }

  predicate Charging(op: Op, operand: Option<u32>) {
    op.Leafy? && Bulk(op.i) && !Small(op.i, operand)
  }

  predicate AnyCharge(ops: seq<Op>, operand: Option<u32>)
    decreases |ops|
  {
    ops != [] && (Charging(ops[0], operand) || AnyCharge(ops[1..], OperandOf(ops[0])))
  }

  lemma AnyCat(n: nat, a: seq<Op>, b: seq<Op>)
    ensures AnyGuestCall(n, a + b) <==> AnyGuestCall(n, a) || AnyGuestCall(n, b)
  {
    if j :| 0 <= j < |a| && GuestCall(n, a[j]) {
      assert GuestCall(n, (a + b)[j]);
    }
    if j :| 0 <= j < |b| && GuestCall(n, b[j]) {
      assert GuestCall(n, (a + b)[|a| + j]);
    }
    if j :| 0 <= j < |a + b| && GuestCall(n, (a + b)[j]) {
      assert if j < |a| then GuestCall(n, a[j]) else GuestCall(n, b[j - |a|]);
    }
  }

  lemma {:induction false} GuestCalls(n: nat, code: Code)
    ensures AnyGuestCall(n, Flatten(code)) <==> CallsGuest(n, code)
    decreases code, 0
  {
    if code.Then? {
      InstrGuestCalls(n, code.first);
      GuestCalls(n, code.rest);
      AnyCat(n, FlattenInstr(code.first), Flatten(code.rest));
    }
  }

  lemma InstrGuestCalls(n: nat, i: Instr)
    ensures AnyGuestCall(n, FlattenInstr(i)) <==> InstrCallsGuest(n, i)
    decreases i, 1
  {
    hide AnyGuestCall, Flatten, CallsGuest;
    match i
    case Block(r, b) => WrappedCalls(n, OpBlock(r), b);
    case Loop(b) => WrappedCalls(n, OpLoop, b);
    case TryTable(r, l, b) => WrappedCalls(n, OpTry(r, l), b);
    case If(r, t, e) =>
      GuestCalls(n, t);
      GuestCalls(n, e);
      OneCall(n, OpIf(r));
      OneCall(n, OpElse);
      OneCall(n, OpEnd);
      AnyCat(n, [OpIf(r)], Flatten(t));
      AnyCat(n, [OpIf(r)] + Flatten(t), [OpElse]);
      AnyCat(n, [OpIf(r)] + Flatten(t) + [OpElse], Flatten(e));
      AnyCat(n, [OpIf(r)] + Flatten(t) + [OpElse] + Flatten(e), [OpEnd]);
    case _ => OneCall(n, Leafy(i));
  }

  lemma OneCall(n: nat, op: Op)
    ensures AnyGuestCall(n, [op]) <==> GuestCall(n, op)
  {
    if GuestCall(n, op) {
      assert GuestCall(n, [op][0]);
    }
  }

  lemma WrappedCalls(n: nat, opening: Op, b: Code)
    requires opening.OpBlock? || opening.OpTry? || opening.OpLoop?
    ensures AnyGuestCall(n, [opening] + Flatten(b) + [OpEnd]) <==> CallsGuest(n, b)
    decreases b, 1
  {
    hide AnyGuestCall, Flatten, CallsGuest;
    GuestCalls(n, b);
    OneCall(n, opening);
    OneCall(n, OpEnd);
    AnyCat(n, [opening], Flatten(b));
    AnyCat(n, [opening] + Flatten(b), [OpEnd]);
  }

  lemma ChargeCons(op: Op, tail: seq<Op>, operand: Option<u32>)
    ensures AnyCharge([op] + tail, operand) <==> Charging(op, operand) || AnyCharge(tail, OperandOf(op))
  {
    assert ([op] + tail)[1..] == tail;
  }

  lemma {:induction false} Charges(code: Code, tail: seq<Op>, operand: Option<u32>)
    ensures AnyCharge(Flatten(code) + tail, operand) <==> Charged(code, operand) || AnyCharge(tail, Trailing(code, operand))
    decreases code, 0
  {
    hide AnyCharge, FlattenInstr, InstrCharged;
    match code
    case End => assert [] + tail == tail;
    case Then(i, rest) =>
      var after := Flatten(rest) + tail;
      assert Flatten(code) + tail == FlattenInstr(i) + after;
      InstrCharges(i, after, operand);
      Charges(rest, tail, Operand(i));
  }

  lemma InstrCharges(i: Instr, tail: seq<Op>, operand: Option<u32>)
    ensures AnyCharge(FlattenInstr(i) + tail, operand) <==> InstrCharged(i, operand) || AnyCharge(tail, Operand(i))
    decreases i, 1
  {
    hide AnyCharge, Flatten, Charged;
    match i
    case Block(r, b) => WrappedCharges(OpBlock(r), b, tail, operand);
    case Loop(b) => WrappedCharges(OpLoop, b, tail, operand);
    case TryTable(r, l, b) => WrappedCharges(OpTry(r, l), b, tail, operand);
    case If(r, t, e) =>
      var last := [OpEnd] + tail;
      var els := Flatten(e) + last;
      var inner := Flatten(t) + ([OpElse] + els);
      assert [OpIf(r)] + Flatten(t) + [OpElse] + Flatten(e) + [OpEnd] + tail == [OpIf(r)] + inner;
      ChargeCons(OpIf(r), inner, operand);
      Charges(t, [OpElse] + els, None);
      ChargeCons(OpElse, els, Trailing(t, None));
      Charges(e, last, None);
      ChargeCons(OpEnd, tail, Trailing(e, None));
    case _ => ChargeCons(Leafy(i), tail, operand);
  }

  lemma WrappedCharges(opening: Op, b: Code, tail: seq<Op>, operand: Option<u32>)
    requires opening.OpBlock? || opening.OpTry? || opening.OpLoop?
    ensures AnyCharge([opening] + Flatten(b) + [OpEnd] + tail, operand) <==> Charged(b, None) || AnyCharge(tail, None)
    decreases b, 1
  {
    hide AnyCharge, Flatten, Charged;
    var inner := Flatten(b) + ([OpEnd] + tail);
    assert [opening] + Flatten(b) + [OpEnd] + tail == [opening] + inner;
    ChargeCons(opening, inner, operand);
    Charges(b, [OpEnd] + tail, None);
    ChargeCons(OpEnd, tail, Trailing(b, None));
  }

  // ------------------------------------------------------------------ the pass

  /** What the pass inserts before or instead of an instruction. */
  predicate Copied(p: Plan, op: Op, operand: Option<u32>) {
    match op
    case OpLoop => false
    case Leafy(i) => !(i.Call? || i.ReturnCall? || i.RefFunc?) && !Charging(op, operand)
    case _ => true
  }

  lemma CopiedIs(p: Plan, scratch: nat, op: Op, operand: Option<u32>)
    requires Copied(p, op, operand)
    ensures Emitted(p, scratch, op, operand) == [op]
  {
    if op.Leafy? && !Nested(op.i) {
      OnlyOne(op.i);
    }
  }

  lemma FlattenImport(p: Plan, f: nat)
    ensures Flatten(ImportCall(p, f))
         == [Leafy(Call(f))] + (if IsExit(p, f) then [Leafy(Unreachable)] else Flatten(Check(p)))
  {
    OnlyOne(Unreachable);
    var after := if IsExit(p, f) then Then(Unreachable, End) else Check(p);
    assert Flatten(Then(Call(f), after)) == [Leafy(Call(f))] + Flatten(after);
  }

  lemma CallIs(p: Plan, scratch: nat, op: Op, operand: Option<u32>)
    requires op.Leafy? && op.i.Call?
    ensures Emitted(p, scratch, op, operand)
         == if op.i.f >= Imported(p) then [Leafy(Call(op.i.f + 1))]
            else [Leafy(Call(op.i.f))] + (if IsExit(p, op.i.f) then [Leafy(Unreachable)] else Flatten(Check(p)))
  {
    OnlyOne(Unreachable);
    OnlyOne(Call(op.i.f + 1));
    FlattenImport(p, op.i.f);
    hide Check;
  }

  lemma ReturnCallIs(p: Plan, scratch: nat, op: Op, operand: Option<u32>)
    requires op.Leafy? && op.i.ReturnCall?
    ensures Emitted(p, scratch, op, operand)
         == if op.i.f >= Imported(p) then [Leafy(ReturnCall(op.i.f + 1))]
            else [Leafy(Call(op.i.f))]
                 + (if IsExit(p, op.i.f) then [Leafy(Unreachable)] else Flatten(Check(p)) + [Leafy(Return)])
  {
    OnlyOne(Unreachable);
    OnlyOne(Return);
    OnlyOne(ReturnCall(op.i.f + 1));
    FlattenImport(p, op.i.f);
    hide Check;
    if op.i.f < Imported(p) && !IsExit(p, op.i.f) {
      FlattenCat(ImportCall(p, op.i.f), Then(Return, End));
      Regroup([Leafy(Call(op.i.f))], Flatten(Check(p)), [Leafy(Return)]);
    }
  }

  lemma ChargedIs(p: Plan, scratch: nat, op: Op, operand: Option<u32>)
    requires Charging(op, operand)
    ensures Emitted(p, scratch, op, operand) == Flatten(Charge(p, scratch, ShiftFor(op.i))) + [op]
  {
    OnlyOne(op.i);
    FlattenCat(Charge(p, scratch, ShiftFor(op.i)), Then(op.i, End));
    hide Charge;
  }

  /** Calls, references and charges, as the pass writes them. */
  lemma WrittenIs(p: Plan, scratch: nat, op: Op, operand: Option<u32>)
    requires op.Leafy?
    ensures op.i.Call? ==>
              Emitted(p, scratch, op, operand)
              == if op.i.f >= Imported(p) then [Leafy(Call(op.i.f + 1))]
                 else [Leafy(Call(op.i.f))] + (if IsExit(p, op.i.f) then [Leafy(Unreachable)] else Flatten(Check(p)))
    ensures op.i.ReturnCall? ==>
              Emitted(p, scratch, op, operand)
              == if op.i.f >= Imported(p) then [Leafy(ReturnCall(op.i.f + 1))]
                 else [Leafy(Call(op.i.f))]
                      + (if IsExit(p, op.i.f) then [Leafy(Unreachable)] else Flatten(Check(p)) + [Leafy(Return)])
    ensures op.i.RefFunc? ==> Emitted(p, scratch, op, operand) == [Leafy(RefFunc(Reference(p, op.i.f)))]
    ensures Charging(op, operand) ==>
              Emitted(p, scratch, op, operand) == Flatten(Charge(p, scratch, ShiftFor(op.i))) + [op]
  {
    if op.i.RefFunc? {
      OnlyOne(RefFunc(Reference(p, op.i.f)));
      hide Check, Charge;
    } else {
      hide Emitted, Flatten, Check, Charge;
      if op.i.Call? {
        CallIs(p, scratch, op, operand);
      } else if op.i.ReturnCall? {
        ReturnCallIs(p, scratch, op, operand);
      } else if Charging(op, operand) {
        ChargedIs(p, scratch, op, operand);
      }
    }
  }

  lemma EmitStep(p: Plan, scratch: nat, ops: seq<Op>, k: nat, operand: Option<u32>)
    requires k < |ops|
    ensures Emit(p, scratch, ops[k..], operand)
         == Emitted(p, scratch, ops[k], operand) + Emit(p, scratch, ops[k + 1..], OperandOf(ops[k]))
    ensures AnyCharge(ops[k..], operand) <==> Charging(ops[k], operand) || AnyCharge(ops[k + 1..], OperandOf(ops[k]))
  {
    assert ops[k..][1..] == ops[k + 1..];
  }

  /** What the loop has written, and what it still copies before position k. */
  function Pending(instructions: seq<Op>, ops: seq<Op>, from: nat, k: nat): seq<Op>
    requires from <= k <= |ops|
  {
    instructions + ops[from..k]
  }

  lemma AnyStep(n: nat, ops: seq<Op>, k: nat)
    requires k < |ops|
    ensures AnyGuestCall(n, ops[..k + 1]) <==> AnyGuestCall(n, ops[..k]) || GuestCall(n, ops[k])
  {
    AnyCat(n, ops[..k], [ops[k]]);
    OneCall(n, ops[k]);
    assert ops[..k + 1] == ops[..k] + [ops[k]];
  }

  /** Copying up to a position: what was pending is written. */
  lemma CopyUntil(instructions: seq<Op>, ops: seq<Op>, from: nat, k: nat)
    requires from <= k < |ops|
    ensures Pending(instructions + ops[from..k], ops, k, k) == Pending(instructions, ops, from, k)
    ensures Pending(instructions, ops, from, k + 1) == Pending(instructions, ops, from, k) + [ops[k]]
    ensures Pending(instructions + ops[from..k], ops, k, k + 1) == Pending(instructions, ops, from, k) + [ops[k]]
    ensures forall more :: Pending(instructions + more, ops, k + 1, k + 1) == instructions + more
    ensures forall more ::
              Pending(instructions + ops[from..k] + more, ops, k, k + 1) == Pending(instructions, ops, from, k) + more + [ops[k]]
  {
    assert ops[k..k] == [] && ops[k..k + 1] == [ops[k]] && ops[k + 1..k + 1] == [];
    assert ops[from..k + 1] == ops[from..k] + [ops[k]];
  }

  /** One case of the pass's switch: what it writes, and from where it still copies. */
  method Handle(p: Plan, scratch: nat, ops: seq<Op>, at: nat, operand: Option<u32>, before: seq<Op>, from0: nat, check: seq<Op>)
    returns (guest: bool, charged: bool, instructions: seq<Op>, from: nat)
    requires from0 <= at < |ops| && check == Flatten(Check(p))
    ensures guest == GuestCall(Imported(p), ops[at])
    ensures charged == Charging(ops[at], operand)
    ensures from <= at + 1
    ensures Pending(instructions, ops, from, at + 1) == Pending(before, ops, from0, at) + Emitted(p, scratch, ops[at], operand)
  {
    hide Check, Flatten, Expand, Charge;
    var op := ops[at];
    guest, charged, instructions, from := false, false, before, from0;
    CopyUntil(before, ops, from0, at);
    hide Pending;
    if Copied(p, op, operand) {
      CopiedIs(p, scratch, op, operand);
      guest := op.Leafy? && (op.i.CallIndirect? || op.i.ReturnCallIndirect?);
      return;
    }
    hide Emitted;
    if op.OpLoop? {
      instructions := Insert(before, ops, from0, at, [op] + check);
      from := at + 1;
      LoopIs(p, scratch, operand);
      return;
    }
    WrittenIs(p, scratch, op, operand);
    var i := op.i;
    from := at + 1;
    if i.Call? {
      guest := i.f >= Imported(p);
      var written := if guest then [Leafy(Call(i.f + 1))]
                     else [Leafy(Call(i.f))] + (if IsExit(p, i.f) then [Leafy(Unreachable)] else check);
      instructions := Insert(before, ops, from0, at, written);
    } else if i.ReturnCall? {
      guest := i.f >= Imported(p);
      var written := if guest then [Leafy(ReturnCall(i.f + 1))]
                     else [Leafy(Call(i.f))] + (if IsExit(p, i.f) then [Leafy(Unreachable)] else check + [Leafy(Return)]);
      instructions := Insert(before, ops, from0, at, written);
    } else if i.RefFunc? {
      instructions := Insert(before, ops, from0, at, [Leafy(RefFunc(Reference(p, i.f)))]);
    } else {
      charged := true;
      instructions := before + ops[from0..at] + Flatten(Charge(p, scratch, ShiftFor(i)));
      from := at;
    }
  }

  lemma LoopIs(p: Plan, scratch: nat, operand: Option<u32>)
    ensures Emitted(p, scratch, OpLoop, operand) == [OpLoop] + Flatten(Check(p))
  {
  }

  /** Copy what is pending, then write `more` in place of the instruction. */
  function Insert(before: seq<Op>, ops: seq<Op>, from: nat, at: nat, more: seq<Op>): (out: seq<Op>)
    requires from <= at < |ops|
    ensures Pending(out, ops, at + 1, at + 1) == Pending(before, ops, from, at) + more
  {
    assert ops[at + 1..at + 1] == [];
    before + ops[from..at] + more
  }

  /** The whole body, from what the loop established. */
  lemma Conclude(p: Plan, fn: Func, ops: seq<Op>, scratch: nat)
    requires fn.ty < |p.m.types| && scratch == p.m.types[fn.ty].params + fn.locals
    requires ops == Flatten(fn.body) + [OpEnd]
    ensures Emit(p, scratch, ops, None) == Flatten(Rewrite(p, scratch, fn.body, None)) + [OpEnd]
    ensures AnyGuestCall(Imported(p), ops) <==> CallsGuest(Imported(p), fn.body)
    ensures AnyCharge(ops, None) <==> Charged(fn.body, None)
    ensures Flatten(RewriteFunc(p, fn).body)
         == (if CallsGuest(Imported(p), fn.body) then Flatten(Check(p)) else []) + Flatten(Rewrite(p, scratch, fn.body, None))
  {
    hide Check, Rewrite, Flatten;
    var none: seq<Op> := [];
    EmitFlatten(p, scratch, fn.body, [OpEnd], None);
    assert [OpEnd] + none == [OpEnd];
    EmitCons(p, scratch, OpEnd, none, Trailing(fn.body, None));
    GuestCalls(Imported(p), fn.body);
    AnyCat(Imported(p), Flatten(fn.body), [OpEnd]);
    OneCall(Imported(p), OpEnd);
    Charges(fn.body, [OpEnd], None);
    ChargeCons(OpEnd, none, Trailing(fn.body, None));
    if CallsGuest(Imported(p), fn.body) {
      FlattenCat(Check(p), Rewrite(p, scratch, fn.body, None));
    } else {
      assert none + Flatten(Rewrite(p, scratch, fn.body, None)) == Flatten(Rewrite(p, scratch, fn.body, None));
    }
  }

  lemma FuncFields(p: Plan, fn: Func)
    requires fn.ty < |p.m.types|
    ensures RewriteFunc(p, fn).locals == fn.locals + (if Charged(fn.body, None) then 1 else 0)
  {
  }

  /** The rewritten function, from what is emitted for its body and its end. */
  lemma Rewritten(p: Plan, fn: Func, ops: seq<Op>, scratch: nat)
    requires fn.ty < |p.m.types| && scratch == p.m.types[fn.ty].params + fn.locals
    requires ops == Flatten(fn.body) + [OpEnd]
    ensures AnyCharge(ops, None) <==> Charged(fn.body, None)
    ensures RewriteFunc(p, fn).locals == fn.locals + (if AnyCharge(ops, None) then 1 else 0)
    ensures Flatten(RewriteFunc(p, fn).body) + [OpEnd]
         == (if AnyGuestCall(Imported(p), ops) then Flatten(Check(p)) else []) + Emit(p, scratch, ops, None)
  {
    hide *;
    Conclude(p, fn, ops, scratch);
    Regroup(if AnyGuestCall(Imported(p), ops) then Flatten(Check(p)) else [], Flatten(Rewrite(p, scratch, fn.body, None)), [OpEnd]);
    FuncFields(p, fn);
  }

  /** What is pending before position k, with what is still to come, is what the whole body becomes. */
  predicate Going(p: Plan, scratch: nat, ops: seq<Op>, k: nat, constant: Option<u32>,
                  pending: seq<Op>, callsGuest: bool, charges: bool)
    requires k <= |ops|
  {
    && pending + Emit(p, scratch, ops[k..], constant) == Emit(p, scratch, ops, None)
    && (callsGuest <==> AnyGuestCall(Imported(p), ops[..k]))
    && (charges || AnyCharge(ops[k..], constant) <==> AnyCharge(ops, None))
  }

  lemma Starts(p: Plan, scratch: nat, ops: seq<Op>)
    ensures Going(p, scratch, ops, 0, None, Pending([], ops, 0, 0), false, false)
  {
    hide Emit, AnyGuestCall, AnyCharge;
    assert ops[0..] == ops && ops[..0] == [] && Pending([], ops, 0, 0) == [];
    assert [] + Emit(p, scratch, ops, None) == Emit(p, scratch, ops, None);
    NoCall(Imported(p));
  }

  lemma Goes(p: Plan, scratch: nat, ops: seq<Op>, k: nat, operand: Option<u32>,
             pending: seq<Op>, callsGuest: bool, charges: bool)
    requires k < |ops| && Going(p, scratch, ops, k, operand, pending, callsGuest, charges)
    ensures Going(p, scratch, ops, k + 1, OperandOf(ops[k]), pending + Emitted(p, scratch, ops[k], operand),
                  callsGuest || GuestCall(Imported(p), ops[k]), charges || Charging(ops[k], operand))
  {
    hide Emit, Emitted, AnyGuestCall, AnyCharge, GuestCall, Charging, OperandOf;
    EmitStep(p, scratch, ops, k, operand);
    AnyStep(Imported(p), ops, k);
    Regroup(pending, Emitted(p, scratch, ops[k], operand), Emit(p, scratch, ops[k + 1..], OperandOf(ops[k])));
  }

  lemma Copies(instructions: seq<Op>, ops: seq<Op>, from: nat)
    requires from <= |ops|
    ensures Pending(instructions, ops, from, |ops|) == instructions + ops[from..]
  {
  }

  lemma Ends(p: Plan, scratch: nat, ops: seq<Op>, constant: Option<u32>, out: seq<Op>, callsGuest: bool, charges: bool)
    requires Going(p, scratch, ops, |ops|, constant, out, callsGuest, charges)
    ensures out == Emit(p, scratch, ops, None)
    ensures callsGuest <==> AnyGuestCall(Imported(p), ops)
    ensures charges <==> AnyCharge(ops, None)
  {
    hide Emit, AnyGuestCall, AnyCharge;
    assert ops[|ops|..] == [] && ops[..|ops|] == ops;
    EmitNone(p, scratch, constant);
  }

  /** The loop of `functionBody`: what it emits, and what it learns of the body on the way. */
  method Instructions(p: Plan, scratch: nat, ops: seq<Op>, check: seq<Op>)
    returns (instructions: seq<Op>, callsGuest: bool, charges: bool)
    requires check == Flatten(Check(p))
    ensures instructions == Emit(p, scratch, ops, None)
    ensures callsGuest <==> AnyGuestCall(Imported(p), ops)
    ensures charges <==> AnyCharge(ops, None)
  {
    hide *;
    instructions, callsGuest, charges := [], false, false;
    var from: nat, position: nat := 0, 0;
    var constant: Option<u32> := None;
    Starts(p, scratch, ops);
    while position < |ops|
      invariant from <= position <= |ops|
      invariant Going(p, scratch, ops, position, constant, Pending(instructions, ops, from, position), callsGuest, charges)
    {
      var at, op, operand := position, ops[position], constant;
      Goes(p, scratch, ops, at, operand, Pending(instructions, ops, from, at), callsGuest, charges);
      position := position + 1;
      constant := OperandOf(op);
      var guest, charge;
      guest, charge, instructions, from := Handle(p, scratch, ops, at, operand, instructions, from, check);
      callsGuest, charges := callsGuest || guest, charges || charge;
    }
    Copies(instructions, ops, from);
    instructions := instructions + ops[from..];
    Ends(p, scratch, ops, constant, instructions, callsGuest, charges);
  }

  /** As many variables as an engine lets one function have, its parameters included. */
  const MAX_LOCALS: nat := 50_000

  datatype Refusal = NoLocalLeft

  /**
   * `functionBody`: the new count of locals and the instructions, ending in
   * the body's end. It is refused only for want of a scratch local.
   */
  method RewriteFunction(p: Plan, fn: Func, ops: seq<Op>) returns (r: Result<(nat, seq<Op>), Refusal>)
    requires fn.ty < |p.m.types|
    requires ops == Flatten(fn.body) + [OpEnd]
    ensures r.Err? <==> Charged(fn.body, None) && p.m.types[fn.ty].params + fn.locals + 1 > MAX_LOCALS
    ensures r.Ok? ==> r.value == (RewriteFunc(p, fn).locals, Flatten(RewriteFunc(p, fn).body) + [OpEnd])
    ensures r.Ok? && p.m.types[fn.ty].params + fn.locals <= MAX_LOCALS ==> p.m.types[fn.ty].params + r.value.0 <= MAX_LOCALS
  {
    hide *;
    var scratch := p.m.types[fn.ty].params + fn.locals;
    var check := Flatten(Check(p));
    var instructions, callsGuest, charges := Instructions(p, scratch, ops, check);
    Rewritten(p, fn, ops, scratch);
    if charges && scratch + 1 > MAX_LOCALS {
      return Err(NoLocalLeft);
    }
    r := Ok((fn.locals + (if charges then 1 else 0), (if callsGuest then check else []) + instructions));
  }

  lemma NoCall(n: nat)
    ensures !AnyGuestCall(n, [])
  {
  }

  lemma EmitNone(p: Plan, scratch: nat, operand: Option<u32>)
    ensures Emit(p, scratch, [], operand) == [] && !AnyCharge([], operand)
  {
  }
}
