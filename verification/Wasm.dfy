/**
 * A structured subset of WebAssembly with the semantics the rewriter has to
 * preserve (WebAssembly Core Specification 2.0, section 4.4, with the tail
 * call and exception handling proposals).
 *
 * `Exec` is a definitional interpreter. Its fuel bounds the nesting of calls
 * and of loop iterations, never the instructions in between, so a run that is
 * cut off carries everything it did until then in its store. The host is an
 * oracle: it answers imports and polls from the history of the run.
 */
module Wasm {
  import opened Prelude

  const MODULUS: int := 0x1_0000_0000

  type u32 = n: int | 0 <= n < MODULUS

  // ---------------------------------------------------------------- syntax

  datatype Value = I32(n: u32) | Ref(f: nat) | Null

  datatype Operator = Add | Sub | ShrU | GeU

  datatype Instr =
    // Instructions that neither branch nor call.
    | Nop
    | Unreachable
    | Drop
    | Const(n: u32)
    | Eqz
    | Binary(op: Operator)
    | LocalGet(x: nat)
    | LocalSet(x: nat)
    | LocalTee(x: nat)
    | GlobalGet(x: nat)
    | GlobalSet(x: nat)
    | RefFunc(f: nat)
    | TableGet
    | TableSet
    | Load8
    | Store8
    | MemoryFill
    | TableFill
    | Throw
    // Control.
    | Br(l: nat)
    | BrIf(l: nat)
    | Return
    | Block(results: nat, body: Code)
    | Loop(body: Code)
    | If(results: nat, thn: Code, els: Code)
    | TryTable(results: nat, handler: nat, body: Code) // one catch_all clause
    | Call(f: nat)
    | ReturnCall(f: nat)
    | CallIndirect(ty: nat)
    | ReturnCallIndirect(ty: nat)

  datatype Code = End | Then(first: Instr, rest: Code)

  function Cat(a: Code, b: Code): Code {
    match a
    case End => b
    case Then(i, rest) => Then(i, Cat(rest, b))
  }

  datatype FuncType = FuncType(params: nat, results: nat)

  /** Exit is wasi proc_exit; Poll is the added `capnp_wasm.interrupt`. */
  datatype ImportKind = Ordinary | Exit | Poll

  datatype Import = Import(ty: nat, kind: ImportKind)

  datatype Func = Func(ty: nat, locals: nat, body: Code)

  /**
   * Function indices number the imports first. `counter` is the exported
   * countdown global, which the host may zero. In a plain run proc_exit
   * unwinds the guest; under the SDK's runtime it returns to it.
   */
  datatype Module = Module(
    types: seq<FuncType>,
    imports: seq<Import>,
    funcs: seq<Func>,
    counter: Option<nat>,
    exitReturns: bool)

  ghost predicate Wellformed(m: Module) {
    && (forall j | 0 <= j < |m.imports| :: m.imports[j].ty < |m.types|)
    && (forall j | 0 <= j < |m.funcs| :: m.funcs[j].ty < |m.types|)
  }

  function TypeOf(m: Module, f: nat): (t: FuncType)
    requires Wellformed(m)
    requires f < |m.imports| + |m.funcs|
  {
    if f < |m.imports| then m.types[m.imports[f].ty]
    else m.types[m.funcs[f - |m.imports|].ty]
  }

  // ------------------------------------------------------------------ host

  /** Why a job's control says that the job must stop. */
  datatype Reason = AbortError | TimeoutError | SignalReason(value: int)

  /** Why the runtime stopped the guest from inside an import or a poll. */
  datatype Stop = Exited(code: u32) | Failed(error: int) | Cancelled

  datatype Event = Event(imp: nat, args: seq<Value>, results: seq<u32>)

  /**
   * All the host remembers: the imports that acted, how often the job's
   * control was consulted, its sticky reason, and the recorded stop.
   */
  datatype World = World(trace: seq<Event>, consults: nat, reason: Option<Reason>, stop: Option<Stop>)

  datatype Reply = Reply(results: seq<u32>, memory: seq<int>, world: World, zero: bool)

  datatype Answer = Answer(answer: u32, world: World, zero: bool)

  /** References are opaque to the host: it sees numbers only. */
  datatype Host = Host(
    call: (World, nat, seq<Value>, seq<int>) -> Reply,
    poll: World -> Answer)

  function Opaque(v: Value): Value {
    if v.I32? then v else Null
  }

  function OpaqueAll(vs: seq<Value>): seq<Value> {
    seq(|vs|, j requires 0 <= j < |vs| => Opaque(vs[j]))
  }

  // ----------------------------------------------------------------- state

  /** A stretch that a poll ended: its work, the ticks it spent, and the call depth where it began. */
  datatype Stretch = Stretch(work: nat, ticks: nat, depth: nat)

  /**
   * Measurements that no instruction can observe. `work` counts what ran
   * since the last poll, which was at `pollDepth`, and `ticks` by how much the
   * code lowered the countdown; `stretches` lists the stretches that polls
   * ended, and `after` the instructions executed since a stop was recorded.
   */
  datatype Meter = Meter(work: nat, ticks: nat, depth: nat, pollDepth: nat, stretches: seq<Stretch>, after: seq<Instr>)

  datatype Store = Store(
    globals: seq<Value>,
    memory: seq<int>,
    table: seq<Value>,
    world: World,
    meter: Meter)

  datatype State = State(locals: seq<Value>, stack: seq<Value>, store: Store)

  datatype Out =
    | Next(s: State)
    | Jump(l: nat, s: State)
    | Leave(s: State)
    | Tail(f: nat, args: seq<Value>, s: State)
    | Trap(s: State)
    | Exn(s: State)
    | OutOfFuel(s: State)
    | Stuck // only code that does not validate gets here

  datatype Res =
    | Done(results: seq<Value>, store: Store)
    | Trapped(store: Store)
    | Threw(store: Store)
    | NoFuel(store: Store)
    | Bad

  function Worked(t: Meter, amount: nat): Meter {
    t.(work := t.work + amount)
  }

  /** A poll ends a stretch and begins the next. */
  function Restarted(t: Meter): Meter {
    t.(work := 0, ticks := 0, pollDepth := t.depth, stretches := t.stretches + [Stretch(t.work, t.ticks, t.pollDepth)])
  }

  function Spend(st: Store, amount: nat): Store {
    st.(meter := Worked(st.meter, amount))
  }

  /** Lowering the countdown spends ticks; raising it spends none. */
  function Spent(t: Meter, before: Value, now: Value): Meter {
    if before.I32? && now.I32? && now.n < before.n then t.(ticks := t.ticks + before.n - now.n) else t
  }

  function SetGlobal(m: Module, st: Store, x: nat, v: Value): Store
    requires x < |st.globals|
  {
    st.(globals := st.globals[x := v],
        meter := if m.counter == Some(x) then Spent(st.meter, st.globals[x], v) else st.meter)
  }

  /** Account for one instruction, executed while `stopped` or not. */
  function Tock(t: Meter, stopped: bool, i: Instr): Meter {
    var t' := Worked(t, 1);
    if stopped then t'.(after := t'.after + [i]) else t'
  }

  function Tick(s: State, i: Instr): State {
    s.(store := s.store.(meter := Tock(s.store.meter, s.store.world.stop.Some?, i)))
  }

  function Push(s: State, v: Value): State {
    s.(stack := s.stack + [v])
  }

  function Top(stack: seq<Value>): Value
    requires |stack| > 0
  {
    stack[|stack| - 1]
  }

  /** The stack without its `n` top values. */
  function Under(stack: seq<Value>, n: nat): seq<Value>
    requires n <= |stack|
  {
    stack[..|stack| - n]
  }

  function Last(stack: seq<Value>, n: nat): seq<Value>
    requires n <= |stack|
  {
    stack[|stack| - n..]
  }

  function Zeros(n: nat): seq<Value> {
    seq(n, _ => I32(0))
  }

  /** Exactly `n` results of an import. */
  function Results(values: seq<u32>, n: nat): seq<Value> {
    seq(n, j requires 0 <= j < n => if j < |values| then I32(values[j]) else I32(0))
  }

  function Zeroed(m: Module, st: Store, zero: bool): Store {
    if zero && m.counter.Some? && m.counter.value < |st.globals|
    then st.(globals := st.globals[m.counter.value := I32(0)])
    else st
  }

  // ------------------------------------------- instructions without control

  function Apply(op: Operator, a: u32, b: u32): u32 {
    match op
    case Add => (a + b) % MODULUS
    case Sub => (a - b) % MODULUS
    case ShrU => Shift(a, b % 32)
    case GeU => if a >= b then 1 else 0
  }

  function Shift(a: u32, n: nat): u32 {
    if n == 0 then a else Shift(a / 2, n - 1)
  }

  lemma ShiftDivides(a: u32)
    ensures Shift(a, 4) == a / 16 && Shift(a, 10) == a / 1024
  {
    ShiftTwice(a, 2);
    ShiftTwice(a / 4, 0);
    ShiftTwice(a, 8);
    ShiftTwice(a / 4, 6);
    ShiftTwice(a / 16, 4);
    ShiftTwice(a / 64, 2);
    ShiftTwice(a / 256, 0);
  }

  lemma ShiftTwice(a: u32, n: nat)
    ensures Shift(a, n + 2) == Shift(a / 4, n)
  {
    assert a / 2 / 2 == a / 4;
  }

  predicate Simple(i: Instr) {
    i.Nop? || i.Unreachable? || i.Drop? || i.Const? || i.Eqz? || i.Binary? || i.LocalGet? || i.LocalSet? || i.LocalTee?
    || i.GlobalGet? || i.GlobalSet? || i.RefFunc? || i.TableGet? || i.TableSet? || i.Load8? || i.Store8?
    || i.MemoryFill? || i.TableFill? || i.Throw?
  }

  function Fill<T>(s: seq<T>, from: nat, count: nat, v: T): seq<T>
    requires from + count <= |s|
  {
    s[..from] + seq(count, _ => v) + s[from + count..]
  }

  /** One simple instruction, after its tick. */
  function Plain(m: Module, i: Instr, s: State): Out
    requires Simple(i)
  {
    var n := |s.stack|;
    match i
    case Nop => Next(s)
    case Unreachable => Trap(s)
    case Throw => Exn(s)
    case Const(v) => Next(Push(s, I32(v)))
    case Drop => if n < 1 then Stuck else Next(s.(stack := Under(s.stack, 1)))
    case Eqz =>
      if n < 1 || !Top(s.stack).I32? then Stuck
      else Next(s.(stack := Under(s.stack, 1) + [I32(if Top(s.stack).n == 0 then 1 else 0)]))
    case Binary(op) =>
      if n < 2 || !s.stack[n - 1].I32? || !s.stack[n - 2].I32? then Stuck
      else Next(s.(stack := Under(s.stack, 2) + [I32(Apply(op, s.stack[n - 2].n, s.stack[n - 1].n))]))
    case LocalGet(x) => if x >= |s.locals| then Stuck else Next(Push(s, s.locals[x]))
    case LocalSet(x) =>
      if x >= |s.locals| || n < 1 then Stuck
      else Next(s.(stack := Under(s.stack, 1), locals := s.locals[x := Top(s.stack)]))
    case LocalTee(x) =>
      if x >= |s.locals| || n < 1 then Stuck else Next(s.(locals := s.locals[x := Top(s.stack)]))
    case GlobalGet(x) =>
      if x >= |s.store.globals| then Stuck else Next(Push(s, s.store.globals[x]))
    case GlobalSet(x) =>
      if x >= |s.store.globals| || n < 1 then Stuck
      else Next(s.(stack := Under(s.stack, 1), store := SetGlobal(m, s.store, x, Top(s.stack))))
    case RefFunc(f) => if f >= |m.imports| + |m.funcs| then Stuck else Next(Push(s, Ref(f)))
    case TableGet =>
      if n < 1 || !Top(s.stack).I32? then Stuck
      else if Top(s.stack).n >= |s.store.table| then Trap(s)
      else Next(s.(stack := Under(s.stack, 1) + [s.store.table[Top(s.stack).n]]))
    case TableSet =>
      if n < 2 || !s.stack[n - 2].I32? || s.stack[n - 1].I32? then Stuck
      else if s.stack[n - 2].n >= |s.store.table| then Trap(s)
      else Next(s.(stack := Under(s.stack, 2),
                   store := s.store.(table := s.store.table[s.stack[n - 2].n := s.stack[n - 1]])))
    case Load8 =>
      if n < 1 || !Top(s.stack).I32? then Stuck
      else if Top(s.stack).n >= |s.store.memory| then Trap(s)
      else Next(s.(stack := Under(s.stack, 1) + [I32(s.store.memory[Top(s.stack).n] % 256)]))
    case Store8 =>
      if n < 2 || !s.stack[n - 2].I32? || !s.stack[n - 1].I32? then Stuck
      else if s.stack[n - 2].n >= |s.store.memory| then Trap(s)
      else Next(s.(stack := Under(s.stack, 2),
                   store := s.store.(memory := s.store.memory[s.stack[n - 2].n := s.stack[n - 1].n % 256])))
    case MemoryFill => // destination, value, size
      if n < 3 || !s.stack[n - 3].I32? || !s.stack[n - 2].I32? || !s.stack[n - 1].I32? then Stuck
      else if s.stack[n - 3].n + s.stack[n - 1].n > |s.store.memory| then Trap(s)
      else
        var size := s.stack[n - 1].n;
        Next(s.(stack := Under(s.stack, 3),
                store := Spend(s.store, size / 1024).(
                  memory := Fill(s.store.memory, s.stack[n - 3].n, size, s.stack[n - 2].n % 256))))
    case TableFill => // destination, reference, size
      if n < 3 || !s.stack[n - 3].I32? || s.stack[n - 2].I32? || !s.stack[n - 1].I32? then Stuck
      else if s.stack[n - 3].n + s.stack[n - 1].n > |s.store.table| then Trap(s)
      else
        var size := s.stack[n - 1].n;
        Next(s.(stack := Under(s.stack, 3),
                store := Spend(s.store, size / 16).(
                  table := Fill(s.store.table, s.stack[n - 3].n, size, s.stack[n - 2]))))
  }

  // ----------------------------------------------------------------- calls

  function CallImport(m: Module, h: Host, f: nat, args: seq<Value>, st: Store): Res
    requires Wellformed(m)
    requires f < |m.imports|
  {
    if m.imports[f].kind == Poll then
      var a := h.poll(st.world);
      Done([I32(a.answer)],
           Zeroed(m, st.(world := a.world, meter := Restarted(st.meter)), a.zero))
    else
      var r := h.call(st.world, f, OpaqueAll(args), st.memory);
      var memory := if |r.memory| == |st.memory| then r.memory else st.memory;
      var st' := Zeroed(m, st.(world := r.world, memory := memory), r.zero);
      if m.imports[f].kind == Exit && !m.exitReturns then Trapped(st')
      else Done(Results(r.results, m.types[m.imports[f].ty].results), st')
  }

  function Enter(st: Store): Store {
    st.(meter := st.meter.(depth := st.meter.depth + 1))
  }

  function Exited'(st: Store, depth: nat): Store {
    st.(meter := st.meter.(depth := depth))
  }

  function CallFunction(m: Module, h: Host, f: nat, args: seq<Value>, st: Store, fuel: nat): Res
    requires Wellformed(m)
    decreases fuel, 0
  {
    if f < |m.imports| then CallImport(m, h, f, args, st)
    else if f - |m.imports| >= |m.funcs| then Bad
    else if fuel == 0 then NoFuel(st)
    else Invoke(m, h, f - |m.imports|, args, st, fuel - 1)
  }

  function Frame(m: Module, k: nat, args: seq<Value>, st: Store): State
    requires k < |m.funcs|
  {
    State(args + Zeros(m.funcs[k].locals), [], Enter(st))
  }

  function Invoke(m: Module, h: Host, k: nat, args: seq<Value>, st: Store, fuel: nat): Res
    requires Wellformed(m)
    requires k < |m.funcs|
    decreases fuel, 2
  {
    var ty := m.types[m.funcs[k].ty];
    if |args| != ty.params then Bad
    else Ended(m, h, ty.results, st.meter.depth, Exec(m, h, m.funcs[k].body, Frame(m, k, args, st), fuel), fuel)
  }

  /** What the callers of a function see when its body ended in `o`. */
  function Ended(m: Module, h: Host, results: nat, depth: nat, o: Out, fuel: nat): Res
    requires Wellformed(m)
    decreases fuel, 1
  {
    match o
    case Next(s) => Finish(results, s, depth)
    case Leave(s) => Finish(results, s, depth)
    case Jump(l, s) => if l == 0 then Finish(results, s, depth) else Bad
    case Tail(g, args, s) =>
      if g >= |m.imports| + |m.funcs| || TypeOf(m, g).results != results then Bad
      else CallFunction(m, h, g, args, Exited'(s.store, depth), fuel)
    case Trap(s) => Trapped(Exited'(s.store, depth))
    case Exn(s) => Threw(Exited'(s.store, depth))
    case OutOfFuel(s) => NoFuel(Exited'(s.store, depth))
    case Stuck => Bad
  }

  function Finish(results: nat, s: State, depth: nat): Res {
    if |s.stack| < results then Bad else Done(Last(s.stack, results), Exited'(s.store, depth))
  }

  /** What a call instruction makes of the callee's result. */
  function Resume(s: State, r: Res): Out {
    match r
    case Done(results, st) => Next(s.(stack := s.stack + results, store := st))
    case Trapped(st) => Trap(s.(store := st))
    case Threw(st) => Exn(s.(store := st))
    case NoFuel(st) => OutOfFuel(s.(store := st))
    case Bad => Stuck
  }

  /** The state after popping `params` arguments, and the arguments. */
  function Args(s: State, params: nat): (State, seq<Value>)
    requires params <= |s.stack|
  {
    (s.(stack := Under(s.stack, params)), Last(s.stack, params))
  }

  /** The function a call_indirect reaches: the operand selects a table entry. */
  datatype Target = Found(f: nat) | Missing | Invalid

  function Lookup(m: Module, ty: nat, s: State): Target
    requires Wellformed(m)
  {
    if |s.stack| < 1 || !Top(s.stack).I32? || ty >= |m.types| then Invalid
    else if Top(s.stack).n >= |s.store.table| then Missing
    else
      match s.store.table[Top(s.stack).n]
      case Ref(f) =>
        if f >= |m.imports| + |m.funcs| then Invalid
        else if TypeOf(m, f) != m.types[ty] then Missing
        else Found(f)
      case Null => Missing
      case I32(_) => Invalid
  }

  // --------------------------------------------------------------- control

  /** Leave a block: its own label is 0 inside. */
  function Unlabel(results: nat, base: seq<Value>, o: Out): Out {
    match o
    case Jump(l, s) =>
      if l > 0 then Jump(l - 1, s)
      else if |s.stack| < results then Stuck
      else Next(s.(stack := base + Last(s.stack, results)))
    case _ => o
  }

  /** A catch_all clause: the handler label counts from outside the block. */
  function Catch(handler: nat, base: seq<Value>, o: Out): Out {
    match o
    case Exn(s) => Jump(handler, s.(stack := base))
    case _ => o
  }

  function Exec(m: Module, h: Host, code: Code, s: State, fuel: nat): Out
    requires Wellformed(m)
    decreases fuel, 1, code
  {
    match code
    case End => Next(s)
    case Then(i, rest) =>
      match Step(m, h, i, s, fuel)
      case Next(s') => Exec(m, h, rest, s', fuel)
      case Jump(l, s') => Jump(l, s')
      case Leave(s') => Leave(s')
      case Tail(f, args, s') => Tail(f, args, s')
      case Trap(s') => Trap(s')
      case Exn(s') => Exn(s')
      case OutOfFuel(s') => OutOfFuel(s')
      case Stuck => Stuck
  }

  function Step(m: Module, h: Host, i: Instr, s0: State, fuel: nat): Out
    requires Wellformed(m)
    decreases fuel, 1, i
  {
    var s := Tick(s0, i);
    if Simple(i) then Plain(m, i, s) else
    match i
    case Br(l) => Jump(l, s)
    case BrIf(l) =>
      if |s.stack| < 1 || !Top(s.stack).I32? then Stuck
      else
        var s' := s.(stack := Under(s.stack, 1));
        if Top(s.stack).n != 0 then Jump(l, s') else Next(s')
    case Return => Leave(s)
    case Block(results, body) => Unlabel(results, s.stack, Exec(m, h, body, s, fuel))
    case If(results, thn, els) =>
      if |s.stack| < 1 || !Top(s.stack).I32? then Stuck
      else
        var s' := s.(stack := Under(s.stack, 1));
        if Top(s.stack).n != 0 then Unlabel(results, s'.stack, Exec(m, h, thn, s', fuel))
        else Unlabel(results, s'.stack, Exec(m, h, els, s', fuel))
    case TryTable(results, handler, body) =>
      Catch(handler, s.stack, Unlabel(results, s.stack, Exec(m, h, body, s, fuel)))
    case Loop(body) =>
      var o := Exec(m, h, body, s, fuel);
      if o.Jump? && o.l == 0 then
        if fuel == 0 then OutOfFuel(o.s) else Step(m, h, i, o.s.(stack := s.stack), fuel - 1)
      else if o.Jump? then Jump(o.l - 1, o.s)
      else o
    case Call(f) =>
      if f >= |m.imports| + |m.funcs| || |s.stack| < TypeOf(m, f).params then Stuck
      else
        var (s', args) := Args(s, TypeOf(m, f).params);
        Resume(s', CallFunction(m, h, f, args, s'.store, fuel))
    case ReturnCall(f) =>
      if f >= |m.imports| + |m.funcs| || |s.stack| < TypeOf(m, f).params then Stuck
      else
        var (s', args) := Args(s, TypeOf(m, f).params);
        Tail(f, args, s')
    case CallIndirect(ty) =>
      (match Lookup(m, ty, s)
       case Invalid => Stuck
       case Missing => Trap(s)
       case Found(f) =>
         var s1 := s.(stack := Under(s.stack, 1));
         if |s1.stack| < m.types[ty].params then Stuck
         else
           var (s', args) := Args(s1, m.types[ty].params);
           Resume(s', CallFunction(m, h, f, args, s'.store, fuel)))
    case ReturnCallIndirect(ty) =>
      (match Lookup(m, ty, s)
       case Invalid => Stuck
       case Missing => Trap(s)
       case Found(f) =>
         var s1 := s.(stack := Under(s.stack, 1));
         if |s1.stack| < m.types[ty].params then Stuck
         else
           var (s', args) := Args(s1, m.types[ty].params);
           Tail(f, args, s'))
  }

  // ---------------------------------------------------------- composition

  function Bind(m: Module, h: Host, o: Out, rest: Code, fuel: nat): Out
    requires Wellformed(m)
  {
    if o.Next? then Exec(m, h, rest, o.s, fuel) else o
  }

  lemma {:induction false} ExecCat(m: Module, h: Host, a: Code, b: Code, s: State, fuel: nat)
    requires Wellformed(m)
    ensures Exec(m, h, Cat(a, b), s, fuel) == Bind(m, h, Exec(m, h, a, s, fuel), b, fuel)
    decreases a
  {
    match a
    case End =>
    case Then(i, rest) =>
      var o := Step(m, h, i, s, fuel);
      if o.Next? {
        ExecCat(m, h, rest, b, o.s, fuel);
      }
  }

  lemma ExecThen(m: Module, h: Host, i: Instr, rest: Code, s: State, fuel: nat)
    requires Wellformed(m)
    ensures Exec(m, h, Then(i, rest), s, fuel) == Bind(m, h, Step(m, h, i, s, fuel), rest, fuel)
  {
  }

  lemma ExecOne(m: Module, h: Host, i: Instr, s: State, fuel: nat)
    requires Wellformed(m)
    ensures Exec(m, h, Then(i, End), s, fuel) == Step(m, h, i, s, fuel)
  {
  }

  // -------------------------------------------- the rules, one at a time

  lemma StepSimple(m: Module, h: Host, i: Instr, s: State, fuel: nat)
    requires Wellformed(m)
    requires Simple(i)
    ensures Step(m, h, i, s, fuel) == Plain(m, i, Tick(s, i))
  {
    hide Plain;
  }

  lemma StepCall(m: Module, h: Host, f: nat, s: State, fuel: nat)
    requires Wellformed(m)
    ensures
      var t := Tick(s, Call(f));
      Step(m, h, Call(f), s, fuel)
      == if f >= |m.imports| + |m.funcs| || |s.stack| < TypeOf(m, f).params then Stuck
         else
           var (t', args) := Args(t, TypeOf(m, f).params);
           Resume(t', CallFunction(m, h, f, args, t'.store, fuel))
  {
  }

  lemma StepBlock(m: Module, h: Host, i: Instr, s: State, fuel: nat)
    requires Wellformed(m)
    requires i.Block? || i.TryTable?
    ensures
      var t := Tick(s, i);
      var o := Unlabel(i.results, t.stack, Exec(m, h, i.body, t, fuel));
      Step(m, h, i, s, fuel) == if i.Block? then o else Catch(i.handler, t.stack, o)
  {
    hide Exec, CallFunction, Unlabel, Catch;
  }

  lemma StepIf(m: Module, h: Host, i: Instr, s: State, fuel: nat)
    requires Wellformed(m)
    requires i.If?
    ensures
      var t := Tick(s, i);
      Step(m, h, i, s, fuel)
      == if |t.stack| < 1 || !Top(t.stack).I32? then Stuck
         else
           var t' := t.(stack := Under(t.stack, 1));
           Unlabel(i.results, t'.stack, Exec(m, h, if Top(t.stack).n != 0 then i.thn else i.els, t', fuel))
  {
    hide Exec, CallFunction, Unlabel;
  }

  lemma StepLoop(m: Module, h: Host, i: Instr, s: State, fuel: nat)
    requires Wellformed(m)
    requires i.Loop?
    ensures
      var o := Exec(m, h, i.body, Tick(s, i), fuel);
      Step(m, h, i, s, fuel)
      == if !o.Jump? then o
         else if o.l > 0 then Jump(o.l - 1, o.s)
         else if fuel == 0 then OutOfFuel(o.s)
         else Step(m, h, i, o.s.(stack := s.stack), fuel - 1)
  {
    hide Exec, CallFunction;
  }

  lemma StepReturnCall(m: Module, h: Host, f: nat, s: State, fuel: nat)
    requires Wellformed(m)
    ensures
      var t := Tick(s, ReturnCall(f));
      Step(m, h, ReturnCall(f), s, fuel)
      == if f >= |m.imports| + |m.funcs| || |s.stack| < TypeOf(m, f).params then Stuck
         else
           var (t', args) := Args(t, TypeOf(m, f).params);
           Tail(f, args, t')
  {
    hide Exec, CallFunction;
  }

  /** The call_indirect rule once its target is known. */
  lemma StepIndirect(m: Module, h: Host, i: Instr, f: nat, s: State, fuel: nat)
    requires Wellformed(m)
    requires i.CallIndirect? || i.ReturnCallIndirect?
    requires Lookup(m, i.ty, Tick(s, i)) == Found(f)
    ensures |s.stack| > 0 && i.ty < |m.types| && f < |m.imports| + |m.funcs| && TypeOf(m, f) == m.types[i.ty]
    ensures
      var t := Tick(s, i).(stack := Under(s.stack, 1));
      var params := m.types[i.ty].params;
      Step(m, h, i, s, fuel)
      == if |t.stack| < params then Stuck
         else
           var (t', args) := Args(t, params);
           if i.CallIndirect? then Resume(t', CallFunction(m, h, f, args, t'.store, fuel)) else Tail(f, args, t')
  {
    hide CallFunction;
  }

  lemma StepNowhere(m: Module, h: Host, i: Instr, s: State, fuel: nat)
    requires Wellformed(m)
    requires i.CallIndirect? || i.ReturnCallIndirect?
    requires !Lookup(m, i.ty, Tick(s, i)).Found?
    ensures Step(m, h, i, s, fuel) == if Lookup(m, i.ty, Tick(s, i)).Missing? then Trap(Tick(s, i)) else Stuck
  {
    hide CallFunction;
  }

  lemma CallUnfold(m: Module, h: Host, f: nat, args: seq<Value>, st: Store, fuel: nat)
    requires Wellformed(m)
    requires f < |m.imports| + |m.funcs|
    requires f < |m.imports| || fuel > 0
    ensures CallFunction(m, h, f, args, st, fuel)
         == if f < |m.imports| then CallImport(m, h, f, args, st)
            else Invoke(m, h, f - |m.imports|, args, st, fuel - 1)
  {
  }

  lemma InvokeUnfold(m: Module, h: Host, k: nat, args: seq<Value>, st: Store, fuel: nat)
    requires Wellformed(m)
    requires k < |m.funcs|
    ensures Invoke(m, h, k, args, st, fuel)
         == if |args| != m.types[m.funcs[k].ty].params then Bad
            else Ended(m, h, m.types[m.funcs[k].ty].results, st.meter.depth,
                       Exec(m, h, m.funcs[k].body, Frame(m, k, args, st), fuel), fuel)
  {
  }
}
