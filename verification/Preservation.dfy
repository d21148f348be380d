/**
 * Meaning preservation: under a host that answers every poll with 0, an
 * instrumented module does what the original does.
 */
module Preservation {
  import opened Prelude
  import opened Wasm
  import opened Rewriter
  import opened Checks

  // ------------------------------------------------------------ the host

  /** What imports can depend on: polls themselves leave no trace. */
  function Visible(w: World): World {
    w.(consults := 0)
  }

  ghost predicate Calm(w: World) {
    w.stop.None? && w.reason.None?
  }

  ghost predicate QuietPoll(h: Host, w: World) {
    var a := h.poll(w);
    Calm(w) ==> a.answer == 0 && Calm(a.world) && Visible(a.world) == Visible(w)
  }

  ghost predicate QuietCall(m: Module, h: Host, w: World, f: nat, args: seq<Value>, memory: seq<int>) {
    var r, v := h.call(w, f, args, memory), h.call(Visible(w), f, args, memory);
    && r.results == v.results
    && r.memory == v.memory
    && Visible(r.world) == Visible(v.world)
    && (Calm(w) && f < |m.imports| && m.imports[f].kind == Ordinary ==> Calm(r.world))
  }

  /**
   * A host that never stops the guest: it answers every poll with 0, records
   * no stop in an ordinary import, and its imports do not depend on how often
   * it was polled. It may zero the countdown at any time.
   */
  ghost predicate Quiet(m: Module, h: Host) {
    && (forall w :: QuietPoll(h, w))
    && (forall w, f, args, memory :: QuietCall(m, h, w, f, args, memory))
  }

  // -------------------------------------------------- related executions

  ghost predicate RelValue(p: Plan, o: Value, i: Value) {
    match o
    case I32(n) => i == o
    case Null => i == o
    case Ref(f) => Declared(p, f) && i == Ref(Reference(p, f))
  }

  ghost predicate RelValues(p: Plan, o: seq<Value>, i: seq<Value>) {
    |o| == |i| && forall j | 0 <= j < |o| :: RelValue(p, o[j], i[j])
  }

  /** The same store with its references renumbered, plus the countdown. */
  ghost predicate RelStore(p: Plan, o: Store, i: Store) {
    && |o.globals| == p.counter
    && |i.globals| == p.counter + 1
    && (forall j | 0 <= j < p.counter :: RelValue(p, o.globals[j], i.globals[j]))
    && i.globals[p.counter].I32?
    && i.memory == o.memory
    && RelValues(p, o.table, i.table)
    && Visible(i.world) == Visible(o.world)
  }

  /**
   * A running state and its image. Locals agree below `x`; a function with a
   * charged operation has the scratch local after them.
   */
  ghost predicate Live(p: Plan, x: nat, scratch: bool, o: State, i: State) {
    && |o.locals| == x
    && |i.locals| == x + (if scratch then 1 else 0)
    && (forall j | 0 <= j < x :: RelValue(p, o.locals[j], i.locals[j]))
    && RelValues(p, o.stack, i.stack)
    && RelStore(p, o.store, i.store)
    && Calm(i.store.world)
  }

  ghost predicate Matches(p: Plan, x: nat, scratch: bool, o: Out, i: Out) {
    match o
    case Next(a) => i.Next? && Live(p, x, scratch, a, i.s)
    case Jump(l, a) => i.Jump? && l == i.l && Live(p, x, scratch, a, i.s)
    case Leave(a) => i.Leave? && Live(p, x, scratch, a, i.s)
    case Exn(a) => i.Exn? && Live(p, x, scratch, a, i.s)
    case Trap(a) => i.Trap? && RelStore(p, a.store, i.s.store)
    case _ => false
  }

  /** The results of an import and what the instrumented code has after it. */
  ghost predicate Returned(p: Plan, r: Res, i: State) {
    && r.Done?
    && |i.stack| >= |r.results|
    && RelValues(p, r.results, Last(i.stack, |r.results|))
    && RelStore(p, r.store, i.store)
    && Calm(i.store.world)
  }

  /**
   * A tail call to an import becomes a call, a check and a return, so a Tail
   * of the original meets the Tail of the renumbered function or whatever the
   * import call led to.
   */
  ghost predicate MatchesTail(p: Plan, h: Host, o: Out, i: Out)
    requires WellPlanned(p)
    requires o.Tail?
  {
    && o.f < Imported(p) + |p.m.funcs|
    && |o.args| == TypeOf(p.m, o.f).params
    && if i.Tail? then
      && Declared(p, o.f)
      && i.f == Reference(p, o.f)
      && RelValues(p, o.args, i.args)
      && RelStore(p, o.s.store, i.s.store)
      && Calm(i.s.store.world)
    else
      && o.f < Imported(p)
      && var r := CallImport(p.m, h, o.f, o.args, o.s.store);
      if r.Done? then i.Leave? && Returned(p, r, i.s)
      else r.Trapped? && i.Trap? && RelStore(p, r.store, i.s.store)
  }

  /**
   * `k` is the extra fuel of the instrumented run, for the thunks. Without it
   * that run may be cut off earlier; with it, the original may.
   */
  ghost predicate RelOut(p: Plan, h: Host, x: nat, scratch: bool, k: nat, o: Out, i: Out)
    requires WellPlanned(p)
  {
    || o.Stuck?
    || (if k == 0 then i.OutOfFuel? else o.OutOfFuel?)
    || (if o.Tail? then MatchesTail(p, h, o, i) else Matches(p, x, scratch, o, i))
  }

  ghost predicate RelRes(p: Plan, k: nat, o: Res, i: Res) {
    || o.Bad?
    || (if k == 0 then i.NoFuel? else o.NoFuel?)
    || (match o
        case Done(rs, a) => i.Done? && RelValues(p, rs, i.results) && RelStore(p, a, i.store) && Calm(i.store.world)
        case Trapped(a) => i.Trapped? && RelStore(p, a, i.store)
        case Threw(a) => i.Threw? && RelStore(p, a, i.store) && Calm(i.store.world)
        case _ => false)
  }

  // ------------------------------------------------- simple instructions

  function Image(p: Plan, i: Instr): Instr {
    if i.RefFunc? then RefFunc(Reference(p, i.f)) else i
  }

  lemma WellPlannedModule(p: Plan)
    requires WellPlanned(p)
    ensures Wellformed(p.m)
    ensures |Instrument(p).types| == |p.m.types| + 1
    ensures |Instrument(p).imports| == Imported(p) + 1
    ensures Instrument(p).types[..|p.m.types|] == p.m.types
  {
    hide AllDeclared;
  }

  ghost predicate SameStep(p: Plan, x: nat, scratch: bool, i: Instr, i': Instr, o: State, s: State)
    requires WellPlanned(p)
    requires Simple(i) && Simple(i')
  {
    var out := Plain(p.m, i, o);
    out.Stuck? || Matches(p, x, scratch, out, Plain(Instrument(p), i', s))
  }

  lemma SimStack(p: Plan, x: nat, scratch: bool, i: Instr, o: State, s: State)
    requires WellPlanned(p)
    requires i.Nop? || i.Unreachable? || i.Throw? || i.Drop? || i.Const? || i.Eqz? || i.Binary?
    requires Live(p, x, scratch, o, s)
    ensures SameStep(p, x, scratch, i, i, o, s)
  {
    hide AllDeclared, Instrument;
  }

  lemma SimVariables(p: Plan, x: nat, scratch: bool, i: Instr, o: State, s: State)
    requires WellPlanned(p)
    requires i.LocalGet? || i.LocalSet? || i.LocalTee? || i.GlobalGet? || i.GlobalSet?
    requires Live(p, x, scratch, o, s)
    ensures SameStep(p, x, scratch, i, i, o, s)
  {
    hide AllDeclared, Instrument;
  }

  lemma SimMemory(p: Plan, x: nat, scratch: bool, i: Instr, o: State, s: State)
    requires WellPlanned(p)
    requires i.Load8? || i.Store8? || i.MemoryFill?
    requires Live(p, x, scratch, o, s)
    ensures SameStep(p, x, scratch, i, i, o, s)
  {
    hide AllDeclared, Instrument;
  }

  lemma SimTable(p: Plan, x: nat, scratch: bool, i: Instr, o: State, s: State)
    requires WellPlanned(p)
    requires i.TableGet? || i.TableSet?
    requires Live(p, x, scratch, o, s)
    ensures SameStep(p, x, scratch, i, i, o, s)
  {
    hide AllDeclared, Instrument;
  }

  lemma SimTableFill(p: Plan, x: nat, scratch: bool, i: Instr, o: State, s: State)
    requires WellPlanned(p)
    requires i.TableFill?
    requires Live(p, x, scratch, o, s)
    ensures SameStep(p, x, scratch, i, i, o, s)
  {
    hide AllDeclared, Instrument;
  }

  lemma SimReference(p: Plan, x: nat, scratch: bool, f: nat, o: State, s: State)
    requires WellPlanned(p)
    requires Declared(p, f)
    requires Live(p, x, scratch, o, s)
    ensures SameStep(p, x, scratch, RefFunc(f), RefFunc(Reference(p, f)), o, s)
  {
    hide AllDeclared, Instrument;
    if f < Imported(p) + |p.m.funcs| {
      ReferenceKeepsType(p, f);
    }
  }

  lemma SimPlain(p: Plan, x: nat, scratch: bool, i: Instr, o: State, s: State)
    requires WellPlanned(p)
    requires Simple(i) && InstrDeclared(p, i)
    requires Live(p, x, scratch, o, s)
    ensures SameStep(p, x, scratch, i, Image(p, i), o, s)
  {
    hide AllDeclared, Instrument, SameStep, Live, WellPlanned;
    if i.RefFunc? {
      SimReference(p, x, scratch, i.f, o, s);
    } else if i.Load8? || i.Store8? || i.MemoryFill? {
      SimMemory(p, x, scratch, i, o, s);
    } else if i.TableFill? {
      SimTableFill(p, x, scratch, i, o, s);
    } else if i.TableGet? || i.TableSet? {
      SimTable(p, x, scratch, i, o, s);
    } else if i.LocalGet? || i.LocalSet? || i.LocalTee? || i.GlobalGet? || i.GlobalSet? {
      SimVariables(p, x, scratch, i, o, s);
    } else {
      SimStack(p, x, scratch, i, o, s);
    }
  }

  // ------------------------------------------------------ checks, charges

  lemma SimPoll(p: Plan, h: Host, o: State, s: State, x: nat, scratch: bool)
    requires WellPlanned(p) && Quiet(p.m, h)
    requires Live(p, x, scratch, o, s)
    ensures var out := PollOutcome(p, h, s); out.Next? && Live(p, x, scratch, o, out.s)
  {
    assert QuietPoll(h, s.store.world);
  }

  /** A check of a quiet host goes on as if it were not there. */
  lemma SimCheck(p: Plan, h: Host, o: State, s: State, x: nat, scratch: bool, fuel: nat)
    requires WellPlanned(p) && Quiet(p.m, h)
    requires Live(p, x, scratch, o, s)
    ensures var out := Exec(Instrument(p), h, Check(p), s, fuel); out.Next? && Live(p, x, scratch, o, out.s)
  {
    hide Exec, Step, AllDeclared, Instrument, PollOutcome, Quiet;
    ExecCheck(p, h, s, fuel);
    var s' := s.(store := Tested(p, s.store));
    assert Live(p, x, scratch, o, s');
    SimPoll(p, h, o, s', x, scratch);
    var before := if Countdown(p, s.store) != 0 then s' else PollOutcome(p, h, s').s;
    LiveDecremented(p, x, scratch, o, before);
  }

  lemma LiveDecremented(p: Plan, x: nat, scratch: bool, o: State, s: State)
    requires Live(p, x, scratch, o, s)
    ensures Live(p, x, scratch, o, s.(store := Decremented(p, s.store)))
  {
  }

  lemma SimLarge(p: Plan, h: Host, o: State, s: State, x: nat, shift: u32)
    requires WellPlanned(p) && Quiet(p.m, h)
    requires Live(p, x, true, o, s) && s.locals[x].I32?
    ensures var out := LargeOutcome(p, h, s, x, shift); out.Next? && Live(p, x, true, o, out.s)
  {
    hide AllDeclared, Apply;
    var s' := s.(store := Compared(p, s.store, x, shift));
    assert Live(p, x, true, o, s');
    if Apply(ShrU, s.locals[x].n, shift) >= Countdown(p, s.store) {
      SimPoll(p, h, o, s', x, true);
    }
  }

  /** A charge leaves the size operand where it was. */
  lemma SimCharge(p: Plan, h: Host, o: State, s: State, x: nat, shift: u32, fuel: nat)
    requires WellPlanned(p) && Quiet(p.m, h)
    requires shift == memoryChargeShift || shift == tableChargeShift
    requires Live(p, x, true, o, s)
    requires |o.stack| > 0 && Top(o.stack).I32?
    ensures var out := Exec(Instrument(p), h, Charge(p, x, shift), s, fuel); out.Next? && Live(p, x, true, o, out.s)
  {
    hide Exec, Step, AllDeclared, LargeOutcome, Instrument;
    assert RelValue(p, Top(o.stack), Top(s.stack));
    ExecCharge(p, h, s, x, shift, fuel);
    var o' := o.(stack := Under(o.stack, 1));
    var s' := Sized(p, s, x, shift);
    assert Live(p, x, true, o', s');
    SimLarge(p, h, o', s', x, shift);
    LargeKeepsLocals(p, h, s', x, shift);
    assert o.stack == o'.stack + [Top(o.stack)];
  }

  // ---------------------------------------------------------------- imports

  lemma SimArgs(p: Plan, o: seq<Value>, i: seq<Value>)
    requires RelValues(p, o, i)
    ensures OpaqueAll(o) == OpaqueAll(i)
  {
    forall j | 0 <= j < |o| ensures Opaque(o[j]) == Opaque(i[j]) {
      assert RelValue(p, o[j], i[j]);
    }
  }

  /** The import acts the same way in both runs; proc_exit returns in one. */
  lemma SimImport(p: Plan, h: Host, f: nat, oargs: seq<Value>, iargs: seq<Value>, o: Store, i: Store)
    requires WellPlanned(p) && Quiet(p.m, h)
    requires f < Imported(p)
    requires RelValues(p, oargs, iargs) && RelStore(p, o, i) && Calm(i.world)
    ensures
      var r, r' := CallImport(p.m, h, f, oargs, o), CallImport(Instrument(p), h, f, iargs, i);
      && r'.Done? && (r.Done? || r.Trapped?)
      && RelStore(p, r.store, r'.store)
      && (r.Trapped? <==> IsExit(p, f))
      && |r'.results| == TypeOf(p.m, f).results
      && (r.Done? ==> RelValues(p, r.results, r'.results) && Calm(r'.store.world))
  {
    hide AllDeclared;
    SimArgs(p, oargs, iargs);
    var m := Instrument(p);
    var args := OpaqueAll(oargs);
    assert QuietCall(p.m, h, o.world, f, args, o.memory);
    assert QuietCall(p.m, h, i.world, f, args, o.memory);
    assert m.imports[f] == p.m.imports[f];
    assert m.types[m.imports[f].ty] == p.m.types[m.imports[f].ty];
    assert p.m.imports[f].kind != Poll;
  }

  /** A direct import call, then the check or the trap. */
  lemma SimImportCall(p: Plan, h: Host, f: nat, o: State, s: State, x: nat, scratch: bool, fuel: nat)
    requires WellPlanned(p) && Quiet(p.m, h)
    requires f < Imported(p)
    requires Live(p, x, scratch, o, s)
    requires |o.stack| >= TypeOf(p.m, f).params
    ensures
      var (o', args) := Args(o, TypeOf(p.m, f).params);
      var r := CallImport(p.m, h, f, args, o'.store);
      var out := Exec(Instrument(p), h, ImportCall(p, f), s, fuel);
      if r.Done? then
        out.Next? && Live(p, x, scratch, o'.(stack := o'.stack + r.results, store := r.store), out.s)
      else r.Trapped? && out.Trap? && RelStore(p, r.store, out.s.store)
    ensures
      var (o', args) := Args(o, TypeOf(p.m, f).params);
      CallImport(p.m, h, f, args, o'.store).Trapped? <==> IsExit(p, f)
  {
    hide Exec, AllDeclared;
    var m := Instrument(p);
    var params := TypeOf(p.m, f).params;
    assert m.imports[f] == p.m.imports[f];
    assert TypeOf(m, f) == TypeOf(p.m, f);
    var (o', oargs) := Args(o, params);
    var t := Tick(s, Call(f));
    var (s', iargs) := Args(t, params);
    SimImport(p, h, f, oargs, iargs, o'.store, s'.store);
    var r, r' := CallImport(p.m, h, f, oargs, o'.store), CallImport(m, h, f, iargs, s'.store);
    var s1 := s'.(stack := s'.stack + r'.results, store := r'.store);
    assert Step(m, h, Call(f), s, fuel) == Next(s1);
    if IsExit(p, f) {
      ExecThen(m, h, Call(f), Then(Unreachable, End), s, fuel);
      ExecUnreachable(m, h, s1, fuel);
    } else {
      ExecThen(m, h, Call(f), Check(p), s, fuel);
      var o1 := o'.(stack := o'.stack + r.results, store := r.store);
      assert Live(p, x, scratch, o1, s1);
      SimCheck(p, h, o1, s1, x, scratch, fuel);
    }
  }

  // ----------------------------------------------------------------- thunks

  lemma {:induction false} ExecForward(m: Module, h: Host, from: nat, n: nat, after: Code, s: State, fuel: nat)
    returns (t: Meter)
    requires Wellformed(m)
    requires from <= n == |s.locals|
    requires s.stack == s.locals[..from]
    ensures Exec(m, h, Forward(from, n, after), s, fuel)
         == Exec(m, h, after, s.(stack := s.locals, store := s.store.(meter := t)), fuel)
    decreases n - from
  {
    hide Step, Exec;
    if from == n {
      t := s.store.meter;
      assert s.locals[..from] == s.locals;
      assert s == s.(stack := s.locals, store := s.store.(meter := t));
    } else {
      var s' := s.(stack := s.stack + [s.locals[from]], store := Metered(s.store, LocalGet(from)));
      RunLocalGet(m, h, from, Forward(from + 1, n, after), s, fuel);
      t := ExecForward(m, h, from + 1, n, after, s', fuel);
    }
  }

  /** A thunk's body: the import call, on its parameters. */
  lemma ExecThunk(p: Plan, h: Host, f: nat, args: seq<Value>, i: Store, fuel: nat)
    returns (s: State)
    requires WellPlanned(p)
    requires f in p.thunks && |args| == TypeOf(p.m, f).params
    ensures
      var m, k := Instrument(p), Reference(p, f) - Imported(p) - 1;
      && 0 <= k < |m.funcs|
      && m.funcs[k].ty == p.m.imports[f].ty
      && Exec(m, h, m.funcs[k].body, Frame(m, k, args, i), fuel) == Exec(m, h, ImportCall(p, f), s, fuel)
    ensures s == State(args, args, i.(meter := s.store.meter))
  {
    hide Exec, AllDeclared, ImportCall;
    var m, k := Instrument(p), Reference(p, f) - Imported(p) - 1;
    assert m.funcs[k] == Thunk(p, f);
    var s0 := Frame(m, k, args, i);
    assert s0.locals == args;
    var t := ExecForward(m, h, 0, |args|, ImportCall(p, f), s0, fuel);
    s := s0.(stack := s0.locals, store := s0.store.(meter := t));
  }

  lemma ThunkType(p: Plan, f: nat)
    requires WellPlanned(p) && f in p.thunks
    ensures f < |p.m.imports| && p.m.imports[f].ty < |Instrument(p).types|
    ensures Wellformed(p.m) && Instrument(p).types[p.m.imports[f].ty] == TypeOf(p.m, f)
  {
    hide AllDeclared;
  }

  lemma InvokeThunk(p: Plan, h: Host, f: nat, args: seq<Value>, i: Store, fuel: nat)
    returns (s: State)
    requires WellPlanned(p)
    requires f in p.thunks && |args| == TypeOf(p.m, f).params
    ensures Imported(p) < Reference(p, f) && Reference(p, f) - Imported(p) - 1 < |Instrument(p).funcs|
    ensures s == State(args, args, i.(meter := s.store.meter))
    ensures Invoke(Instrument(p), h, Reference(p, f) - Imported(p) - 1, args, i, fuel)
         == Ended(Instrument(p), h, TypeOf(p.m, f).results, i.meter.depth,
                  Exec(Instrument(p), h, ImportCall(p, f), s, fuel), fuel)
  {
    hide *;
    s := ExecThunk(p, h, f, args, i, fuel);
    ThunkType(p, f);
    InvokeUnfold(Instrument(p), h, Reference(p, f) - Imported(p) - 1, args, i, fuel);
  }

  ghost predicate FollowsThunk(p: Plan, h: Host, f: nat, oargs: seq<Value>, iargs: seq<Value>, o: Store, i: Store, fuel: nat)
    requires WellPlanned(p)
    requires f < Imported(p)
  {
    var k := Reference(p, f) - Imported(p) - 1;
    && 0 <= k < |Instrument(p).funcs|
    && forall e :: RelRes(p, e, CallImport(p.m, h, f, oargs, o), Invoke(Instrument(p), h, k, iargs, i, fuel))
  }

  /** Calling a thunk is calling the import it stands for. */
  lemma SimThunk(p: Plan, h: Host, f: nat, oargs: seq<Value>, iargs: seq<Value>, o: Store, i: Store, fuel: nat)
    requires WellPlanned(p) && Quiet(p.m, h)
    requires f in p.thunks
    requires RelValues(p, oargs, iargs) && RelStore(p, o, i) && Calm(i.world)
    requires |oargs| == TypeOf(p.m, f).params
    ensures FollowsThunk(p, h, f, oargs, iargs, o, i, fuel)
  {
    hide Exec, AllDeclared, CallImport, ImportCall, Invoke, Ended, Instrument, RelRes;
    var s := InvokeThunk(p, h, f, iargs, i, fuel);
    var o' := State(oargs, oargs, o);
    assert Live(p, |oargs|, false, o', s);
    hide RelStore, Live;
    SimImportCall(p, h, f, o', s, |oargs|, false, fuel);
    assert Under(o'.stack, |oargs|) == [] && Last(o'.stack, |oargs|) == oargs;
    var r := CallImport(p.m, h, f, oargs, o);
    CallOfImport(p.m, h, f, oargs, o, fuel);
    assert r.Done? ==> [] + r.results == r.results;
    RelThunk(p, h, f, oargs, r, Exec(Instrument(p), h, ImportCall(p, f), s, fuel), i.meter.depth, fuel);
  }

  lemma RelThunk(p: Plan, h: Host, f: nat, oargs: seq<Value>, r: Res, out: Out, depth: nat, fuel: nat)
    requires WellPlanned(p)
    requires f < Imported(p)
    requires r.Done? ==> |r.results| == TypeOf(p.m, f).results
    requires
      if r.Done? then out.Next? && Live(p, |oargs|, false, State(oargs, r.results, r.store), out.s)
      else r.Trapped? && out.Trap? && RelStore(p, r.store, out.s.store)
    ensures forall k :: RelRes(p, k, r, Ended(Instrument(p), h, TypeOf(p.m, f).results, depth, out, fuel))
  {
    hide AllDeclared, Instrument;
    if r.Done? {
      assert Last(out.s.stack, |r.results|) == out.s.stack;
    }
  }

  // ------------------------------------------------------ the whole pass

  /** The scratch local exists wherever the code uses it. */
  ghost predicate Ready(p: Plan, code: Code, operand: Option<u32>, scratch: bool) {
    AllDeclared(p, code) && (Charged(code, operand) ==> scratch)
  }

  lemma RelNext(p: Plan, h: Host, x: nat, scratch: bool, k: nat, out: Out, out': Out)
    requires WellPlanned(p)
    requires RelOut(p, h, x, scratch, k, out, out')
    requires out.Next? && out'.Next?
    ensures Live(p, x, scratch, out.s, out'.s)
  {
    hide AllDeclared, Live;
  }

  /** Related instructions followed by related code are related. */
  lemma RelBind(p: Plan, h: Host, x: nat, scratch: bool, k: nat, out: Out, out': Out, end: Out, end': Out)
    requires WellPlanned(p)
    requires RelOut(p, h, x, scratch, k, out, out')
    requires !out.Next? ==> end == out
    requires !out'.Next? ==> end' == out'
    requires out.Next? && out'.Next? ==> RelOut(p, h, x, scratch, k, end, end')
    ensures RelOut(p, h, x, scratch, k, end, end')
  {
    hide AllDeclared, Live, CallImport;
  }

  /** The image of `code` follows the original. */
  ghost predicate Follows(p: Plan, h: Host, x: nat, scratch: bool, code: Code, operand: Option<u32>,
                          o: State, s: State, fuel: nat, k: nat)
    requires WellPlanned(p)
  {
    RelOut(p, h, x, scratch, k, Exec(p.m, h, code, o, fuel),
           Exec(Instrument(p), h, Rewrite(p, x, code, operand), s, fuel + k))
  }

  /** What replaces one instruction follows it. */
  ghost predicate FollowsStep(p: Plan, h: Host, x: nat, scratch: bool, i: Instr, operand: Option<u32>,
                              o: State, s: State, fuel: nat, k: nat)
    requires WellPlanned(p)
  {
    RelOut(p, h, x, scratch, k, Step(p.m, h, i, o, fuel),
           Exec(Instrument(p), h, Expand(p, x, i, operand), s, fuel + k))
  }

  /** A call by the new index follows the call by the old one. */
  ghost predicate FollowsCall(p: Plan, h: Host, f: nat, oargs: seq<Value>, iargs: seq<Value>,
                              o: Store, i: Store, fuel: nat, k: nat)
    requires WellPlanned(p)
  {
    RelRes(p, k, CallFunction(p.m, h, f, oargs, o, fuel),
           CallFunction(Instrument(p), h, Reference(p, f), iargs, i, fuel + k))
  }

  ghost predicate FollowsInvoke(p: Plan, h: Host, j: nat, oargs: seq<Value>, iargs: seq<Value>,
                                o: Store, i: Store, fuel: nat, k: nat)
    requires WellPlanned(p)
    requires j < |p.m.funcs|
  {
    RelRes(p, k, Invoke(p.m, h, j, oargs, o, fuel), Invoke(Instrument(p), h, j, iargs, i, fuel + k))
  }

  lemma RewriteThen(p: Plan, x: nat, scratch: bool, code: Code, operand: Option<u32>)
    requires code.Then?
    requires Ready(p, code, operand, scratch)
    ensures Rewrite(p, x, code, operand)
         == Cat(Expand(p, x, code.first, operand), Rewrite(p, x, code.rest, Operand(code.first)))
    ensures InstrDeclared(p, code.first) && (InstrCharged(code.first, operand) ==> scratch)
    ensures Ready(p, code.rest, Operand(code.first), scratch)
  {
  }

  lemma SimEnd(p: Plan, h: Host, x: nat, scratch: bool, operand: Option<u32>, o: State, s: State, fuel: nat, k: nat)
    requires WellPlanned(p)
    requires Live(p, x, scratch, o, s)
    ensures Follows(p, h, x, scratch, End, operand, o, s, fuel, k)
  {
    hide AllDeclared, Live, Instrument, Step;
  }

  lemma FollowsIs(p: Plan, h: Host, x: nat, scratch: bool, code: Code, operand: Option<u32>,
                  o: State, s: State, fuel: nat, k: nat)
    requires WellPlanned(p) && Wellformed(p.m)
    ensures Follows(p, h, x, scratch, code, operand, o, s, fuel, k)
       <==> RelOut(p, h, x, scratch, k, Exec(p.m, h, code, o, fuel),
                   Exec(Instrument(p), h, Rewrite(p, x, code, operand), s, fuel + k))
  {
    hide RelOut, Exec, WellPlanned, Rewrite, Instrument;
  }

  lemma FollowsCode(p: Plan, h: Host, x: nat, scratch: bool, code: Code, operand: Option<u32>,
                    o: State, s: State, fuel: nat, k: nat)
    requires WellPlanned(p) && Wellformed(p.m)
    requires code.Then? && Ready(p, code, operand, scratch)
    ensures
      var m, i := Instrument(p), code.first;
      var code' := Rewrite(p, x, code.rest, Operand(i));
      Follows(p, h, x, scratch, code, operand, o, s, fuel, k)
      <==> RelOut(p, h, x, scratch, k, Bind(p.m, h, Step(p.m, h, i, o, fuel), code.rest, fuel),
                  Bind(m, h, Exec(m, h, Expand(p, x, i, operand), s, fuel + k), code', fuel + k))
  {
    hide *;
    FollowsIs(p, h, x, scratch, code, operand, o, s, fuel, k);
    RewriteThen(p, x, scratch, code, operand);
    ExecThen(p.m, h, code.first, code.rest, o, fuel);
    ExecCat(Instrument(p), h, Expand(p, x, code.first, operand), Rewrite(p, x, code.rest, Operand(code.first)), s, fuel + k);
  }

  /** An instruction and then the rest, where both runs get there. */
  lemma SimThen(p: Plan, h: Host, x: nat, scratch: bool, code: Code, operand: Option<u32>,
                o: State, s: State, fuel: nat, k: nat)
    returns (more: bool, o': State, s': State)
    requires WellPlanned(p)
    requires code.Then? && Ready(p, code, operand, scratch)
    requires FollowsStep(p, h, x, scratch, code.first, operand, o, s, fuel, k)
    ensures more ==> Live(p, x, scratch, o', s')
    ensures (more ==> Follows(p, h, x, scratch, code.rest, Operand(code.first), o', s', fuel, k)) ==>
              Follows(p, h, x, scratch, code, operand, o, s, fuel, k)
  {
    assert Wellformed(p.m);
    hide Live, RelOut, Step, Exec, WellPlanned, Ready, Rewrite, Instrument, Expand;
    FollowsCode(p, h, x, scratch, code, operand, o, s, fuel, k);
    var m, i, code' := Instrument(p), code.first, Rewrite(p, x, code.rest, Operand(code.first));
    var out, out' := Step(p.m, h, i, o, fuel), Exec(m, h, Expand(p, x, i, operand), s, fuel + k);
    more, o', s' := out.Next? && out'.Next?, o, s;
    if more {
      o', s' := out.s, out'.s;
      RelNext(p, h, x, scratch, k, out, out');
    }
    if more ==> Follows(p, h, x, scratch, code.rest, Operand(i), o', s', fuel, k) {
      RelBind(p, h, x, scratch, k, out, out', Bind(p.m, h, out, code.rest, fuel), Bind(m, h, out', code', fuel + k));
    }
  }

  lemma {:induction false} SimExec(p: Plan, h: Host, x: nat, scratch: bool, code: Code, operand: Option<u32>,
                                   o: State, s: State, fuel: nat, k: nat)
    requires WellPlanned(p) && Quiet(p.m, h) && k <= 1
    requires Ready(p, code, operand, scratch)
    requires Live(p, x, scratch, o, s)
    ensures Follows(p, h, x, scratch, code, operand, o, s, fuel, k)
    decreases fuel, 1, code
  {
    if code == End {
      SimEnd(p, h, x, scratch, operand, o, s, fuel, k);
    } else {
      hide Live, Step, Exec, Instrument, WellPlanned, Quiet, Ready, Follows, FollowsStep;
      RewriteThen(p, x, scratch, code, operand);
      SimStep(p, h, x, scratch, code.first, operand, o, s, fuel, k);
      var more, o', s' := SimThen(p, h, x, scratch, code, operand, o, s, fuel, k);
      if more {
        SimExec(p, h, x, scratch, code.rest, Operand(code.first), o', s', fuel, k);
      }
    }
  }

  lemma SimStep(p: Plan, h: Host, x: nat, scratch: bool, i: Instr, operand: Option<u32>,
                o: State, s: State, fuel: nat, k: nat)
    requires WellPlanned(p) && Quiet(p.m, h) && k <= 1
    requires InstrDeclared(p, i) && (InstrCharged(i, operand) ==> scratch)
    requires Live(p, x, scratch, o, s)
    ensures FollowsStep(p, h, x, scratch, i, operand, o, s, fuel, k)
    decreases fuel, 1, i, 2
  {
    hide Live, RelOut, AllDeclared, Instrument, WellPlanned, Quiet, Exec, Step;
    if !Simple(i) {
      ExpandControl(p, x, i, operand);
    }
    match i
    case Block(_, _) => SimBlock(p, h, x, scratch, i, o, s, fuel, k);
    case If(_, _, _) => SimIf(p, h, x, scratch, i, o, s, fuel, k);
    case TryTable(_, _, _) => SimTry(p, h, x, scratch, i, o, s, fuel, k);
    case Loop(_) => SimLoop(p, h, x, scratch, i, o, s, fuel, k);
    case Call(_) => SimCallStep(p, h, x, scratch, i, o, s, fuel, k);
    case ReturnCall(_) => SimReturnCall(p, h, x, scratch, i, o, s, fuel, k);
    case CallIndirect(_) => SimCallIndirect(p, h, x, scratch, i, o, s, fuel, k);
    case ReturnCallIndirect(_) => SimCallIndirect(p, h, x, scratch, i, o, s, fuel, k);
    case _ =>
      if i.Br? || i.BrIf? || i.Return? {
        SimBranch(p, h, x, scratch, i, o, s, fuel, k);
      } else {
        SimSimple(p, h, x, scratch, i, operand, o, s, fuel, k);
      }
  }

  /** Only bulk operations look at the operand. */
  lemma ExpandControl(p: Plan, x: nat, i: Instr, operand: Option<u32>)
    requires !Simple(i)
    ensures Expand(p, x, i, operand) == Expand(p, x, i, None)
  {
  }

  lemma LiveTick(p: Plan, x: nat, scratch: bool, o: State, s: State, i: Instr, i': Instr)
    requires Live(p, x, scratch, o, s)
    ensures Live(p, x, scratch, Tick(o, i), Tick(s, i'))
  {
  }

  lemma LiveTickLeft(p: Plan, x: nat, scratch: bool, o: State, s: State, i: Instr)
    requires Live(p, x, scratch, o, s)
    ensures Live(p, x, scratch, Tick(o, i), s)
  {
  }

  lemma SimBulk(p: Plan, h: Host, x: nat, i: Instr, o: State, s: State, fuel: nat, fuel': nat)
    requires WellPlanned(p) && Quiet(p.m, h)
    requires Bulk(i)
    requires Live(p, x, true, o, s)
    requires |o.stack| > 0 && Top(o.stack).I32?
    ensures
      var out := Step(p.m, h, i, o, fuel);
      out.Stuck? || Matches(p, x, true, out, Exec(Instrument(p), h, Cat(Charge(p, x, ShiftFor(i)), Then(i, End)), s, fuel'))
  {
    hide AllDeclared, Instrument, Exec, Step, Live, Matches, Plain;
    var m, charge := Instrument(p), Charge(p, x, ShiftFor(i));
    SimCharge(p, h, o, s, x, ShiftFor(i), fuel');
    ExecCat(m, h, charge, Then(i, End), s, fuel');
    var s1 := Exec(m, h, charge, s, fuel').s;
    ExecOne(m, h, i, s1, fuel');
    StepSimple(p.m, h, i, o, fuel);
    StepSimple(m, h, i, s1, fuel');
    LiveTick(p, x, true, o, s1, i, i);
    SimPlain(p, x, true, i, Tick(o, i), Tick(s1, i));
  }

  lemma SimCharged(p: Plan, h: Host, x: nat, i: Instr, operand: Option<u32>, o: State, s: State, fuel: nat, k: nat)
    requires WellPlanned(p) && Quiet(p.m, h)
    requires Bulk(i) && !Small(i, operand)
    requires Live(p, x, true, o, s)
    ensures FollowsStep(p, h, x, true, i, operand, o, s, fuel, k)
  {
    hide AllDeclared, Instrument, Exec, Step, Live, MatchesTail, Matches, Charge;
    if |o.stack| > 0 && Top(o.stack).I32? {
      SimBulk(p, h, x, i, o, s, fuel, fuel + k);
      StepSimple(p.m, h, i, o, fuel);
      PlainEnds(p.m, i, Tick(o, i));
    } else {
      StepSimple(p.m, h, i, o, fuel);
    }
  }

  lemma PlainEnds(m: Module, i: Instr, s: State)
    requires Simple(i)
    ensures !Plain(m, i, s).Tail?
  {
    hide Fill, Apply;
  }

  lemma SimSimple(p: Plan, h: Host, x: nat, scratch: bool, i: Instr, operand: Option<u32>,
                  o: State, s: State, fuel: nat, k: nat)
    requires WellPlanned(p) && Quiet(p.m, h) && k <= 1
    requires Simple(i) && InstrDeclared(p, i) && (InstrCharged(i, operand) ==> scratch)
    requires Live(p, x, scratch, o, s)
    ensures FollowsStep(p, h, x, scratch, i, operand, o, s, fuel, k)
  {
    hide AllDeclared, Instrument, Exec, Step, Plain, Live, MatchesTail, Matches;
    if Bulk(i) && !Small(i, operand) {
      SimCharged(p, h, x, i, operand, o, s, fuel, k);
    } else {
      var m, i' := Instrument(p), Image(p, i);
      StepSimple(p.m, h, i, o, fuel);
      StepSimple(m, h, i', s, fuel + k);
      ExecOne(m, h, i', s, fuel + k);
      LiveTick(p, x, scratch, o, s, i, i');
      SimPlain(p, x, scratch, i, Tick(o, i), Tick(s, i'));
      PlainEnds(p.m, i, Tick(o, i));
    }
  }

  lemma SimBranch(p: Plan, h: Host, x: nat, scratch: bool, i: Instr, o: State, s: State, fuel: nat, k: nat)
    requires WellPlanned(p)
    requires i.Br? || i.BrIf? || i.Return?
    requires Live(p, x, scratch, o, s)
    ensures FollowsStep(p, h, x, scratch, i, None, o, s, fuel, k)
  {
    hide AllDeclared, Instrument, Exec;
    ExecOne(Instrument(p), h, i, s, fuel + k);
    if i.BrIf? && |o.stack| > 0 {
      assert RelValue(p, Top(o.stack), Top(s.stack));
    }
  }

  lemma RelUnlabel(p: Plan, h: Host, x: nat, scratch: bool, k: nat, o: Out, i: Out,
                   results: nat, ob: seq<Value>, ib: seq<Value>)
    requires WellPlanned(p)
    requires RelOut(p, h, x, scratch, k, o, i)
    requires RelValues(p, ob, ib)
    ensures RelOut(p, h, x, scratch, k, Unlabel(results, ob, o), Unlabel(results, ib, i))
  {
    hide AllDeclared, RelStore;
  }

  lemma SimBlock(p: Plan, h: Host, x: nat, scratch: bool, i: Instr, o: State, s: State, fuel: nat, k: nat)
    requires WellPlanned(p) && Quiet(p.m, h) && k <= 1
    requires i.Block? && Ready(p, i.body, None, scratch)
    requires Live(p, x, scratch, o, s)
    ensures FollowsStep(p, h, x, scratch, i, None, o, s, fuel, k)
    decreases fuel, 1, i, 0
  {
    hide AllDeclared, Instrument, Exec, RelOut;
    var m, i' := Instrument(p), Block(i.results, Rewrite(p, x, i.body, None));
    var t, u := Tick(o, i), Tick(s, i');
    SimExec(p, h, x, scratch, i.body, None, t, u, fuel, k);
    RelUnlabel(p, h, x, scratch, k, Exec(p.m, h, i.body, t, fuel), Exec(m, h, i'.body, u, fuel + k),
               i.results, t.stack, u.stack);
    ExecOne(m, h, i', s, fuel + k);
  }

  lemma SimIf(p: Plan, h: Host, x: nat, scratch: bool, i: Instr, o: State, s: State, fuel: nat, k: nat)
    requires WellPlanned(p) && Quiet(p.m, h) && k <= 1
    requires i.If? && Ready(p, i.thn, None, scratch) && Ready(p, i.els, None, scratch)
    requires Live(p, x, scratch, o, s)
    ensures FollowsStep(p, h, x, scratch, i, None, o, s, fuel, k)
    decreases fuel, 1, i, 0
  {
    hide AllDeclared, Instrument, Exec, Step, Live, RelOut, Unlabel, Ready;
    var m, i' := Instrument(p), If(i.results, Rewrite(p, x, i.thn, None), Rewrite(p, x, i.els, None));
    ExecOne(m, h, i', s, fuel + k);
    StepIf(p.m, h, i, o, fuel);
    StepIf(m, h, i', s, fuel + k);
    LiveTick(p, x, scratch, o, s, i, i');
    if |o.stack| > 0 && Top(o.stack).I32? {
      LivePop(p, x, scratch, Tick(o, i), Tick(s, i'));
      LiveTop(p, x, scratch, o, s);
      var t := Tick(o, i).(stack := Under(o.stack, 1));
      var u := Tick(s, i').(stack := Under(s.stack, 1));
      var chosen := if Top(o.stack).n != 0 then i.thn else i.els;
      SimExec(p, h, x, scratch, chosen, None, t, u, fuel, k);
      LiveStack(p, x, scratch, t, u);
      RelUnlabel(p, h, x, scratch, k, Exec(p.m, h, chosen, t, fuel), Exec(m, h, Rewrite(p, x, chosen, None), u, fuel + k),
                 i.results, t.stack, u.stack);
    } else {
      StuckFollows(p, h, x, scratch, k, Step(m, h, i', s, fuel + k));
    }
  }

  lemma LiveTop(p: Plan, x: nat, scratch: bool, o: State, s: State)
    requires Live(p, x, scratch, o, s) && |o.stack| > 0 && Top(o.stack).I32?
    ensures |s.stack| > 0 && Top(s.stack) == Top(o.stack)
  {
    assert RelValue(p, Top(o.stack), Top(s.stack));
  }

  lemma RelCatch(p: Plan, h: Host, x: nat, scratch: bool, k: nat, o: Out, i: Out,
                 handler: nat, ob: seq<Value>, ib: seq<Value>)
    requires WellPlanned(p)
    requires RelOut(p, h, x, scratch, k, o, i)
    requires RelValues(p, ob, ib)
    ensures RelOut(p, h, x, scratch, k, Catch(handler, ob, o), Catch(handler, ib, i))
  {
    hide AllDeclared, RelStore, CallImport;
  }

  lemma SimTry(p: Plan, h: Host, x: nat, scratch: bool, i: Instr, o: State, s: State, fuel: nat, k: nat)
    requires WellPlanned(p) && Quiet(p.m, h) && k <= 1
    requires i.TryTable? && Ready(p, i.body, None, scratch)
    requires Live(p, x, scratch, o, s)
    ensures FollowsStep(p, h, x, scratch, i, None, o, s, fuel, k)
    decreases fuel, 1, i, 0
  {
    hide AllDeclared, Instrument, Exec, RelOut;
    var m, i' := Instrument(p), TryTable(i.results, i.handler, Rewrite(p, x, i.body, None));
    var t, u := Tick(o, i), Tick(s, i');
    SimExec(p, h, x, scratch, i.body, None, t, u, fuel, k);
    var out, out' := Exec(p.m, h, i.body, t, fuel), Exec(m, h, i'.body, u, fuel + k);
    RelUnlabel(p, h, x, scratch, k, out, out', i.results, t.stack, u.stack);
    RelCatch(p, h, x, scratch, k, Unlabel(i.results, t.stack, out), Unlabel(i.results, u.stack, out'),
             i.handler, t.stack, u.stack);
    ExecOne(m, h, i', s, fuel + k);
  }

  /** One iteration of a loop, after its body ended in `o`. */
  function Again(m: Module, h: Host, i: Instr, base: seq<Value>, o: Out, fuel: nat): Out
    requires Wellformed(m)
    requires i.Loop?
  {
    if o.Jump? && o.l == 0 then
      if fuel == 0 then OutOfFuel(o.s) else Step(m, h, i, o.s.(stack := base), fuel - 1)
    else if o.Jump? then Jump(o.l - 1, o.s)
    else o
  }

  lemma StepLoop(m: Module, h: Host, i: Instr, s: State, fuel: nat)
    requires Wellformed(m)
    requires i.Loop?
    ensures Step(m, h, i, s, fuel) == Again(m, h, i, s.stack, Exec(m, h, i.body, Tick(s, i), fuel), fuel)
  {
  }

  lemma LiveBase(p: Plan, x: nat, scratch: bool, o: State, s: State, ob: seq<Value>, sb: seq<Value>)
    requires Live(p, x, scratch, o, s)
    requires RelValues(p, ob, sb)
    ensures Live(p, x, scratch, o.(stack := ob), s.(stack := sb))
  {
  }

  lemma LiveStack(p: Plan, x: nat, scratch: bool, o: State, s: State)
    requires Live(p, x, scratch, o, s)
    ensures RelValues(p, o.stack, s.stack)
  {
  }

  lemma {:induction false} SimLoop(p: Plan, h: Host, x: nat, scratch: bool, i: Instr, o: State, s: State, fuel: nat, k: nat)
    requires WellPlanned(p) && Quiet(p.m, h) && k <= 1
    requires i.Loop? && Ready(p, i.body, None, scratch)
    requires Live(p, x, scratch, o, s)
    ensures FollowsStep(p, h, x, scratch, i, None, o, s, fuel, k)
    decreases fuel, 1, i, 0
  {
    hide AllDeclared, Instrument, Exec, Step, Live, RelOut;
    var m, body' := Instrument(p), Rewrite(p, x, i.body, None);
    var i' := Loop(Cat(Check(p), body'));
    var t, u := Tick(o, i), Tick(s, i');
    LiveTick(p, x, scratch, o, s, i, i');
    LiveStack(p, x, scratch, o, s);
    SimCheck(p, h, t, u, x, scratch, fuel + k);
    ExecCat(m, h, Check(p), body', u, fuel + k);
    var u1 := Exec(m, h, Check(p), u, fuel + k).s;
    SimExec(p, h, x, scratch, i.body, None, t, u1, fuel, k);
    StepLoop(p.m, h, i, o, fuel);
    StepLoop(m, h, i', s, fuel + k);
    ExecOne(m, h, i', s, fuel + k);
    var out, out' := Exec(p.m, h, i.body, t, fuel), Exec(m, h, body', u1, fuel + k);
    if out.Jump? && out.l == 0 && out'.Jump? && out'.l == 0 && fuel > 0 {
      var o1, s1 := out.s.(stack := o.stack), out'.s.(stack := s.stack);
      RelJump(p, h, x, scratch, k, out, out');
      LiveBase(p, x, scratch, out.s, out'.s, o.stack, s.stack);
      SimLoop(p, h, x, scratch, i, o1, s1, fuel - 1, k);
      ExecOne(m, h, i', s1, fuel - 1 + k);
    }
    RelAgain(p, h, x, scratch, k, i, i', o.stack, s.stack, out, out', fuel);
  }

  lemma RelJump(p: Plan, h: Host, x: nat, scratch: bool, k: nat, out: Out, out': Out)
    requires WellPlanned(p)
    requires RelOut(p, h, x, scratch, k, out, out')
    requires out.Jump? && out'.Jump?
    ensures Live(p, x, scratch, out.s, out'.s)
  {
    hide AllDeclared, Live;
  }

  lemma RelAgain(p: Plan, h: Host, x: nat, scratch: bool, k: nat, i: Instr, i': Instr,
                 ob: seq<Value>, sb: seq<Value>, out: Out, out': Out, fuel: nat)
    requires WellPlanned(p) && k <= 1
    requires i.Loop? && i'.Loop?
    requires RelOut(p, h, x, scratch, k, out, out')
    requires out.Jump? && out.l == 0 && out'.Jump? && out'.l == 0 && fuel > 0 ==>
               RelOut(p, h, x, scratch, k, Step(p.m, h, i, out.s.(stack := ob), fuel - 1),
                      Step(Instrument(p), h, i', out'.s.(stack := sb), fuel - 1 + k))
    ensures RelOut(p, h, x, scratch, k, Again(p.m, h, i, ob, out, fuel), Again(Instrument(p), h, i', sb, out', fuel + k))
  {
    hide AllDeclared, Live, CallImport, Step, Instrument;
  }

  // ------------------------------------------------------------------ calls

  /** A called function, named directly or by reference. */
  lemma SimCall(p: Plan, h: Host, f: nat, oargs: seq<Value>, iargs: seq<Value>, o: Store, i: Store, fuel: nat, k: nat)
    requires WellPlanned(p) && Quiet(p.m, h) && k <= 1
    requires f < Imported(p) + |p.m.funcs| && Declared(p, f)
    requires RelValues(p, oargs, iargs) && RelStore(p, o, i) && Calm(i.world)
    requires |oargs| == TypeOf(p.m, f).params
    ensures FollowsCall(p, h, f, oargs, iargs, o, i, fuel, k)
    decreases fuel, 0
  {
    hide AllDeclared, RelRes, RelStore, Quiet, FollowsCall, Instrument, Invoke;
    if fuel == 0 && (k == 0 || f >= Imported(p)) {
      SimCallCutOff(p, h, f, oargs, iargs, o, i, fuel, k);
    } else if f < Imported(p) {
      SimCallImport(p, h, f, oargs, iargs, o, i, fuel, k);
    } else {
      SimInvoke(p, h, f - Imported(p), oargs, iargs, o, i, fuel - 1, k);
      SimCallDefined(p, h, f - Imported(p), oargs, iargs, o, i, fuel - 1, k);
    }
  }

  lemma SimCallImport(p: Plan, h: Host, f: nat, oargs: seq<Value>, iargs: seq<Value>, o: Store, i: Store, fuel: nat, k: nat)
    requires WellPlanned(p) && Quiet(p.m, h)
    requires f < Imported(p) && Declared(p, f) && fuel + k > 0
    requires RelValues(p, oargs, iargs) && RelStore(p, o, i) && Calm(i.world)
    requires |oargs| == TypeOf(p.m, f).params
    ensures FollowsCall(p, h, f, oargs, iargs, o, i, fuel, k)
  {
    hide AllDeclared, RelRes, RelStore, Quiet, Instrument, CallImport, Invoke, CallFunction;
    ReferenceKeepsType(p, f);
    CallUnfold(p.m, h, f, oargs, o, fuel);
    CallUnfold(Instrument(p), h, Reference(p, f), iargs, i, fuel + k);
    WellPlannedModule(p);
    SimThunk(p, h, f, oargs, iargs, o, i, fuel + k - 1);
    var r := Reference(p, f) - Imported(p) - 1;
    ThunkFollowed(p, h, f, oargs, iargs, o, i, fuel + k - 1, k);
    assert CallFunction(Instrument(p), h, Reference(p, f), iargs, i, fuel + k)
        == Invoke(Instrument(p), h, r, iargs, i, fuel + k - 1);
  }

  lemma ThunkFollowed(p: Plan, h: Host, f: nat, oargs: seq<Value>, iargs: seq<Value>, o: Store, i: Store, fuel: nat, e: nat)
    requires WellPlanned(p)
    requires f < Imported(p)
    requires FollowsThunk(p, h, f, oargs, iargs, o, i, fuel)
    ensures 0 <= Reference(p, f) - Imported(p) - 1 < |Instrument(p).funcs|
    ensures RelRes(p, e, CallImport(p.m, h, f, oargs, o),
                   Invoke(Instrument(p), h, Reference(p, f) - Imported(p) - 1, iargs, i, fuel))
  {
    hide RelRes, CallImport, Invoke, Instrument;
  }

  lemma SimCallDefined(p: Plan, h: Host, j: nat, oargs: seq<Value>, iargs: seq<Value>, o: Store, i: Store, fuel: nat, k: nat)
    requires WellPlanned(p)
    requires j < |p.m.funcs|
    requires FollowsInvoke(p, h, j, oargs, iargs, o, i, fuel, k)
    ensures FollowsCall(p, h, j + Imported(p), oargs, iargs, o, i, fuel + 1, k)
  {
    hide AllDeclared, RelRes, RelStore, Quiet, Instrument, CallImport, Invoke, CallFunction;
    var f := j + Imported(p);
    ReferenceKeepsType(p, f);
    WellPlannedModule(p);
    CallUnfold(p.m, h, f, oargs, o, fuel + 1);
    CallUnfold(Instrument(p), h, Reference(p, f), iargs, i, fuel + 1 + k);
  }

  lemma SimCallCutOff(p: Plan, h: Host, f: nat, oargs: seq<Value>, iargs: seq<Value>, o: Store, i: Store, fuel: nat, k: nat)
    requires WellPlanned(p) && k <= 1
    requires f < Imported(p) + |p.m.funcs| && Declared(p, f)
    requires fuel == 0 && (k == 0 || f >= Imported(p))
    ensures FollowsCall(p, h, f, oargs, iargs, o, i, fuel, k)
  {
    hide AllDeclared, RelRes;
    ReferenceKeepsType(p, f);
    RelCutOff(p, k, CallFunction(p.m, h, f, oargs, o, fuel),
              CallFunction(Instrument(p), h, Reference(p, f), iargs, i, fuel + k));
  }

  lemma RelCutOff(p: Plan, k: nat, o: Res, i: Res)
    requires if k == 0 then i.NoFuel? else o.NoFuel?
    ensures RelRes(p, k, o, i)
  {
  }

  lemma ImportIgnoresMeter(m: Module, h: Host, f: nat, args: seq<Value>, st: Store, t: Meter)
    requires Wellformed(m)
    requires f < |m.imports| && m.imports[f].kind != Poll
    ensures
      var r, r' := CallImport(m, h, f, args, st), CallImport(m, h, f, args, st.(meter := t));
      && (r.Done? || r.Trapped?)
      && r' == (if r.Done? then Done(r.results, r.store.(meter := t)) else Trapped(r.store.(meter := t)))
  {
  }

  /** Bodies that ended in related ways give related results. */
  lemma SimEnded(p: Plan, h: Host, x: nat, scratch: bool, results: nat, od: nat, id: nat, out: Out, out': Out,
                 fuel: nat, k: nat)
    requires WellPlanned(p) && Quiet(p.m, h) && k <= 1
    requires RelOut(p, h, x, scratch, k, out, out')
    ensures RelRes(p, k, Ended(p.m, h, results, od, out, fuel), Ended(Instrument(p), h, results, id, out', fuel + k))
    decreases fuel, 1
  {
    hide AllDeclared, CallFunction, CallImport, RelRes;
    if out.Tail? && MatchesTail(p, h, out, out') {
      SimEndedTail(p, h, results, od, id, out, out', fuel, k);
    } else {
      SimEndedHere(p, h, x, scratch, results, od, id, out, out', fuel, k);
    }
  }

  lemma SimEndedHere(p: Plan, h: Host, x: nat, scratch: bool, results: nat, od: nat, id: nat, out: Out, out': Out,
                     fuel: nat, k: nat)
    requires WellPlanned(p) && k <= 1
    requires RelOut(p, h, x, scratch, k, out, out')
    requires !(out.Tail? && MatchesTail(p, h, out, out'))
    ensures RelRes(p, k, Ended(p.m, h, results, od, out, fuel), Ended(Instrument(p), h, results, id, out', fuel + k))
  {
    hide AllDeclared, CallFunction, CallImport, MatchesTail, Instrument, RelStore, Finish, Live;
    if out.Next? || out.Leave? || out.Jump? || out.Exn? {
      if out'.Next? || out'.Leave? || out'.Jump? || out'.Exn? {
        RelFinish(p, x, scratch, results, od, id, out.s, out'.s, k);
      }
    } else if out.Trap? && out'.Trap? {
      RelExited(p, od, id, out.s.store, out'.s.store);
    }
  }

  lemma RelExited(p: Plan, od: nat, id: nat, o: Store, i: Store)
    ensures RelStore(p, Exited'(o, od), Exited'(i, id)) == RelStore(p, o, i)
  {
  }

  lemma RelFinish(p: Plan, x: nat, scratch: bool, results: nat, od: nat, id: nat, o: State, s: State, k: nat)
    ensures Live(p, x, scratch, o, s) ==>
              && RelRes(p, k, Finish(results, o, od), Finish(results, s, id))
              && RelRes(p, k, Threw(Exited'(o.store, od)), Threw(Exited'(s.store, id)))
  {
    RelExited(p, od, id, o.store, s.store);
    hide RelStore;
  }

  lemma SimEndedTail(p: Plan, h: Host, results: nat, od: nat, id: nat, out: Out, out': Out, fuel: nat, k: nat)
    requires WellPlanned(p) && Quiet(p.m, h) && k <= 1
    requires out.Tail? && MatchesTail(p, h, out, out')
    ensures RelRes(p, k, Ended(p.m, h, results, od, out, fuel), Ended(Instrument(p), h, results, id, out', fuel + k))
    decreases fuel, 1, 0
  {
    hide AllDeclared, CallFunction, CallImport;
    if TypeOf(p.m, out.f).results == results {
      var ot := Exited'(out.s.store, od);
      if out'.Tail? {
        ReferenceKeepsType(p, out.f);
        SimCall(p, h, out.f, out.args, out'.args, ot, Exited'(out'.s.store, id), fuel, k);
      } else {
        CallOfImport(p.m, h, out.f, out.args, ot, fuel);
        ImportIgnoresMeter(p.m, h, out.f, out.args, out.s.store, ot.meter);
      }
    }
  }

  lemma CallOfImport(m: Module, h: Host, f: nat, args: seq<Value>, st: Store, fuel: nat)
    requires Wellformed(m)
    requires f < |m.imports|
    ensures CallFunction(m, h, f, args, st, fuel) == CallImport(m, h, f, args, st)
    ensures CallImport(m, h, f, args, st).Done? ==>
              m.imports[f].kind == Poll || |CallImport(m, h, f, args, st).results| == TypeOf(m, f).results
  {
  }

  lemma SimInvoke(p: Plan, h: Host, j: nat, oargs: seq<Value>, iargs: seq<Value>, o: Store, i: Store, fuel: nat, k: nat)
    requires WellPlanned(p) && Quiet(p.m, h) && k <= 1
    requires j < |p.m.funcs|
    requires RelValues(p, oargs, iargs) && RelStore(p, o, i) && Calm(i.world)
    ensures FollowsInvoke(p, h, j, oargs, iargs, o, i, fuel, k)
    decreases fuel, 2
  {
    hide AllDeclared, Exec, RelOut;
    var m, fn := Instrument(p), p.m.funcs[j];
    var ty := p.m.types[fn.ty];
    assert m.funcs[j] == RewriteFunc(p, fn);
    assert m.types[m.funcs[j].ty] == ty;
    if |oargs| == ty.params {
      var x, scratch := Scratch(p, fn), Charged(fn.body, None);
      var t, u := Frame(p.m, j, oargs, o), Frame(m, j, iargs, i);
      assert Live(p, x, scratch, t, u);
      var code := Rewrite(p, x, fn.body, None);
      var u1 := u;
      if CallsGuest(Imported(p), fn.body) {
        SimCheck(p, h, t, u, x, scratch, fuel + k);
        ExecCat(m, h, Check(p), code, u, fuel + k);
        u1 := Exec(m, h, Check(p), u, fuel + k).s;
      }
      SimExec(p, h, x, scratch, fn.body, None, t, u1, fuel, k);
      SimEnded(p, h, x, scratch, ty.results, o.meter.depth, i.meter.depth, Exec(p.m, h, fn.body, t, fuel),
               Exec(m, h, m.funcs[j].body, u, fuel + k), fuel, k);
    }
  }

  /** The results of a call, back in the caller. */
  lemma SimResume(p: Plan, h: Host, x: nat, scratch: bool, k: nat, o: State, s: State, r: Res, r': Res)
    requires WellPlanned(p)
    requires Live(p, x, scratch, o, s)
    requires RelRes(p, k, r, r')
    ensures RelOut(p, h, x, scratch, k, Resume(o, r), Resume(s, r'))
  {
    hide AllDeclared;
  }

  lemma SimCallStep(p: Plan, h: Host, x: nat, scratch: bool, i: Instr, o: State, s: State, fuel: nat, k: nat)
    requires WellPlanned(p) && Quiet(p.m, h) && k <= 1
    requires i.Call?
    requires Live(p, x, scratch, o, s)
    ensures FollowsStep(p, h, x, scratch, i, None, o, s, fuel, k)
    decreases fuel, 1, i, 0
  {
    hide AllDeclared, Instrument, Exec, Step, CallFunction, CallImport, Live, Resume, RelRes, MatchesTail;
    var m, f := Instrument(p), i.f;
    var t := Tick(o, i);
    StepCall(p.m, h, f, o, fuel);
    if f < Imported(p) + |p.m.funcs| && |o.stack| >= TypeOf(p.m, f).params {
      var (t', oargs) := Args(t, TypeOf(p.m, f).params);
      if f < Imported(p) {
        LiveTickLeft(p, x, scratch, o, s, i);
        SimImportCall(p, h, f, t, s, x, scratch, fuel + k);
        ResumeImport(p.m, h, f, oargs, t', fuel);
      } else {
        hide RelOut;
        var u := Tick(s, Call(f + 1));
        ReferenceKeepsType(p, f);
        LiveTick(p, x, scratch, o, s, i, Call(f + 1));
        LiveArgs(p, x, scratch, t, u, TypeOf(p.m, f).params);
        var (u', iargs) := Args(u, TypeOf(p.m, f).params);
        SimCall(p, h, f, oargs, iargs, t'.store, u'.store, fuel, k);
        SimResume(p, h, x, scratch, k, t', u', CallFunction(p.m, h, f, oargs, t'.store, fuel),
                  CallFunction(m, h, f + 1, iargs, u'.store, fuel + k));
        ExecOne(m, h, Call(f + 1), s, fuel + k);
        StepCall(m, h, f + 1, s, fuel + k);
      }
    }
  }

  lemma LiveArgs(p: Plan, x: nat, scratch: bool, o: State, s: State, n: nat)
    requires Live(p, x, scratch, o, s)
    requires n <= |o.stack|
    ensures |o.stack| == |s.stack|
    ensures
      var (o', oargs) := Args(o, n);
      var (s', sargs) := Args(s, n);
      && Live(p, x, scratch, o', s')
      && RelValues(p, oargs, sargs)
      && RelStore(p, o'.store, s'.store)
      && Calm(s'.store.world)
  {
  }

  lemma ResumeImport(m: Module, h: Host, f: nat, args: seq<Value>, s: State, fuel: nat)
    requires Wellformed(m)
    requires f < |m.imports|
    ensures var r := CallImport(m, h, f, args, s.store);
            Resume(s, CallFunction(m, h, f, args, s.store, fuel))
            == if r.Done? then Next(s.(stack := s.stack + r.results, store := r.store))
               else Trap(s.(store := r.store))
  {
  }

  /** An import called in tail position: call, check, return. */
  lemma SimReturnImport(p: Plan, h: Host, x: nat, scratch: bool, f: nat, o: State, s: State, fuel: nat)
    requires WellPlanned(p) && Quiet(p.m, h)
    requires f < Imported(p)
    requires Live(p, x, scratch, o, s)
    requires |o.stack| >= TypeOf(p.m, f).params
    ensures
      var (o', args) := Args(o, TypeOf(p.m, f).params);
      MatchesTail(p, h, Tail(f, args, o'), Exec(Instrument(p), h, Expand(p, x, ReturnCall(f), None), s, fuel))
  {
    hide AllDeclared, Instrument, Exec, Step, CallImport, Live, RelStore;
    var m := Instrument(p);
    var (o', args) := Args(o, TypeOf(p.m, f).params);
    SimImportCall(p, h, f, o, s, x, scratch, fuel);
    var r, out := CallImport(p.m, h, f, args, o'.store), Exec(m, h, ImportCall(p, f), s, fuel);
    if !IsExit(p, f) {
      ExecCat(m, h, ImportCall(p, f), Then(Return, End), s, fuel);
      ExecReturn(m, h, out.s, fuel);
      LiveReturned(p, x, scratch, o'.stack, r, o'.(stack := o'.stack + r.results, store := r.store), out.s);
    }
  }

  lemma ExecReturn(m: Module, h: Host, s: State, fuel: nat)
    requires Wellformed(m)
    ensures Exec(m, h, Then(Return, End), s, fuel) == Leave(Tick(s, Return))
  {
  }

  lemma LiveReturned(p: Plan, x: nat, scratch: bool, base: seq<Value>, r: Res, o: State, s: State)
    requires r.Done? && o.stack == base + r.results && o.store == r.store
    requires Live(p, x, scratch, o, s)
    ensures Returned(p, r, Tick(s, Return))
  {
    forall j | 0 <= j < |r.results|
      ensures RelValue(p, r.results[j], Last(s.stack, |r.results|)[j])
    {
      assert o.stack[|base| + j] == r.results[j];
    }
  }

  /** A tail call meets the tail call of the renumbered function. */
  lemma RelTail(p: Plan, h: Host, x: nat, scratch: bool, k: nat, f: nat, o: State, s: State)
    requires WellPlanned(p)
    requires f < Imported(p) + |p.m.funcs| && Declared(p, f) && |o.stack| >= TypeOf(p.m, f).params
    requires Live(p, x, scratch, o, s)
    ensures |s.stack| == |o.stack|
    ensures
      var (o', oargs) := Args(o, TypeOf(p.m, f).params);
      var (s', sargs) := Args(s, TypeOf(p.m, f).params);
      RelOut(p, h, x, scratch, k, Tail(f, oargs, o'), Tail(Reference(p, f), sargs, s'))
  {
    LiveArgs(p, x, scratch, o, s, TypeOf(p.m, f).params);
    hide AllDeclared, Live, RelStore, Matches, Reference, Declared;
  }

  lemma SimReturnDefined(p: Plan, h: Host, x: nat, scratch: bool, f: nat, o: State, s: State, fuel: nat, k: nat)
    requires WellPlanned(p)
    requires Imported(p) <= f < Imported(p) + |p.m.funcs|
    requires Live(p, x, scratch, o, s)
    ensures FollowsStep(p, h, x, scratch, ReturnCall(f), None, o, s, fuel, k)
  {
    hide AllDeclared, Instrument, Exec, Step, Live, RelOut, TypeOf, Args;
    var m, t, u := Instrument(p), Tick(o, ReturnCall(f)), Tick(s, ReturnCall(f + 1));
    ReferenceKeepsType(p, f);
    WellPlannedModule(p);
    LiveTick(p, x, scratch, o, s, ReturnCall(f), ReturnCall(f + 1));
    StepReturnCall(p.m, h, f, o, fuel);
    StepReturnCall(m, h, f + 1, s, fuel + k);
    ExecOne(m, h, ReturnCall(f + 1), s, fuel + k);
    if |o.stack| >= TypeOf(p.m, f).params {
      RelTail(p, h, x, scratch, k, f, t, u);
    } else {
      StuckFollows(p, h, x, scratch, k, Exec(m, h, Then(ReturnCall(f + 1), End), s, fuel + k));
    }
  }

  lemma StuckFollows(p: Plan, h: Host, x: nat, scratch: bool, k: nat, out: Out)
    requires WellPlanned(p)
    ensures RelOut(p, h, x, scratch, k, Stuck, out)
  {
  }

  lemma SimReturnCall(p: Plan, h: Host, x: nat, scratch: bool, i: Instr, o: State, s: State, fuel: nat, k: nat)
    requires WellPlanned(p) && Quiet(p.m, h)
    requires i.ReturnCall?
    requires Live(p, x, scratch, o, s)
    ensures FollowsStep(p, h, x, scratch, i, None, o, s, fuel, k)
  {
    hide AllDeclared, Instrument, Exec, Step, CallImport, Live, RelStore, MatchesTail;
    var f, t := i.f, Tick(o, i);
    if Imported(p) <= f < Imported(p) + |p.m.funcs| {
      SimReturnDefined(p, h, x, scratch, f, o, s, fuel, k);
    } else {
      LiveTickLeft(p, x, scratch, o, s, i);
      StepReturnCall(p.m, h, f, o, fuel);
      if f < Imported(p) && |o.stack| >= TypeOf(p.m, f).params {
        SimReturnImport(p, h, x, scratch, f, t, s, fuel + k);
      }
    }
  }

  lemma SimLookup(p: Plan, ty: nat, o: State, s: State, x: nat, scratch: bool)
    requires WellPlanned(p)
    requires Live(p, x, scratch, o, s)
    ensures
      var t, t' := Lookup(p.m, ty, o), Lookup(Instrument(p), ty, s);
      match t
      case Invalid => true
      case Missing => t'.Missing?
      case Found(f) => Declared(p, f) && t' == Found(Reference(p, f))
  {
    hide WellPlanned, Instrument, TypeOf, Reference;
    assert Wellformed(p.m) by { WellPlannedModule(p); }
    WellPlannedModule(p);
    if |o.stack| > 0 && Top(o.stack).I32? && ty < |p.m.types| {
      assert RelValue(p, Top(o.stack), Top(s.stack));
      var n := Top(o.stack).n;
      if n < |o.store.table| {
        var v := o.store.table[n];
        assert RelValue(p, v, s.store.table[n]);
        if v.Ref? && v.f < Imported(p) + |p.m.funcs| {
          ReferenceKeepsType(p, v.f);
        }
      }
    }
  }

  lemma LivePop(p: Plan, x: nat, scratch: bool, o: State, s: State)
    requires Live(p, x, scratch, o, s)
    requires |o.stack| > 0
    ensures |s.stack| == |o.stack|
    ensures Live(p, x, scratch, o.(stack := Under(o.stack, 1)), s.(stack := Under(s.stack, 1)))
  {
  }

  lemma RelTrap(p: Plan, h: Host, x: nat, scratch: bool, k: nat, o: State, s: State)
    requires WellPlanned(p)
    requires Live(p, x, scratch, o, s)
    ensures RelOut(p, h, x, scratch, k, Trap(o), Trap(s))
  {
    hide AllDeclared;
  }

  lemma SimNowhere(p: Plan, h: Host, x: nat, scratch: bool, i: Instr, o: State, s: State, fuel: nat, k: nat)
    requires WellPlanned(p) && Quiet(p.m, h) && k <= 1
    requires i.CallIndirect? || i.ReturnCallIndirect?
    requires Live(p, x, scratch, o, s) && !Lookup(p.m, i.ty, Tick(o, i)).Found?
    ensures FollowsStep(p, h, x, scratch, i, None, o, s, fuel, k)
  {
    hide AllDeclared, Exec, CallFunction, Step, Live, Instrument, Lookup, RelRes, RelStore, Matches;
    var m, t, u := Instrument(p), Tick(o, i), Tick(s, i);
    ExecOne(m, h, i, s, fuel + k);
    LiveTick(p, x, scratch, o, s, i, i);
    SimLookup(p, i.ty, t, u, x, scratch);
    StepNowhere(p.m, h, i, o, fuel);
    if Lookup(p.m, i.ty, t).Missing? {
      StepNowhere(m, h, i, s, fuel + k);
      RelTrap(p, h, x, scratch, k, t, u);
    }
  }

  /** The table leads both runs to the same function. */
  lemma SimFound(p: Plan, h: Host, x: nat, scratch: bool, i: Instr, f: nat, o: State, s: State, fuel: nat, k: nat)
    requires WellPlanned(p) && Quiet(p.m, h) && k <= 1
    requires i.CallIndirect? || i.ReturnCallIndirect?
    requires Live(p, x, scratch, o, s) && Declared(p, f)
    requires Lookup(p.m, i.ty, Tick(o, i)) == Found(f) && Lookup(Instrument(p), i.ty, Tick(s, i)) == Found(Reference(p, f))
    ensures RelOut(p, h, x, scratch, k, Step(p.m, h, i, o, fuel), Step(Instrument(p), h, i, s, fuel + k))
    decreases fuel, 1, i, 0
  {
    hide AllDeclared, Exec, CallFunction, Step, Live, Instrument, Lookup, Resume, RelRes, RelStore, RelOut, Reference;
    var m, t, u := Instrument(p), Tick(o, i), Tick(s, i);
    StepIndirect(p.m, h, i, f, o, fuel);
    StepIndirect(m, h, i, Reference(p, f), s, fuel + k);
    LiveTick(p, x, scratch, o, s, i, i);
    LivePop(p, x, scratch, t, u);
    var params := p.m.types[i.ty].params;
    var t1, u1 := t.(stack := Under(t.stack, 1)), u.(stack := Under(u.stack, 1));
    ReferenceKeepsType(p, f);
    if |o.stack| - 1 < params {
      StuckFollows(p, h, x, scratch, k, Step(m, h, i, s, fuel + k));
    } else if i.CallIndirect? {
      LiveArgs(p, x, scratch, t1, u1, params);
      var (t', oargs) := Args(t1, params);
      var (u', iargs) := Args(u1, params);
      SimCall(p, h, f, oargs, iargs, t'.store, u'.store, fuel, k);
      SimResume(p, h, x, scratch, k, t', u', CallFunction(p.m, h, f, oargs, t'.store, fuel),
                CallFunction(m, h, Reference(p, f), iargs, u'.store, fuel + k));
    } else {
      RelTail(p, h, x, scratch, k, f, t1, u1);
    }
  }

  lemma SimCallIndirect(p: Plan, h: Host, x: nat, scratch: bool, i: Instr, o: State, s: State, fuel: nat, k: nat)
    requires WellPlanned(p) && Quiet(p.m, h) && k <= 1
    requires i.CallIndirect? || i.ReturnCallIndirect?
    requires Live(p, x, scratch, o, s)
    ensures FollowsStep(p, h, x, scratch, i, None, o, s, fuel, k)
    decreases fuel, 1, i, 1
  {
    hide AllDeclared, Exec, Step, Live, Instrument, Lookup, RelOut;
    LiveTick(p, x, scratch, o, s, i, i);
    SimLookup(p, i.ty, Tick(o, i), Tick(s, i), x, scratch);
    var target := Lookup(p.m, i.ty, Tick(o, i));
    if target.Found? {
      SimFound(p, h, x, scratch, i, target.f, o, s, fuel, k);
      ExecOne(Instrument(p), h, i, s, fuel + k);
    } else {
      SimNowhere(p, h, x, scratch, i, o, s, fuel, k);
    }
  }

  // ---------------------------------------------------------- main theorems

  function ImageValue(p: Plan, v: Value): Value {
    if v.Ref? then Ref(Reference(p, v.f)) else v
  }

  function ImageValues(p: Plan, vs: seq<Value>): seq<Value> {
    seq(|vs|, j requires 0 <= j < |vs| => ImageValue(p, vs[j]))
  }

  /** The store the instrumented module starts from. */
  function ImageStore(p: Plan, st: Store): Store {
    st.(globals := ImageValues(p, st.globals) + [I32(p.interval)], table := ImageValues(p, st.table))
  }

  ghost predicate ValuesDeclared(p: Plan, vs: seq<Value>) {
    forall j | 0 <= j < |vs| && vs[j].Ref? :: Declared(p, vs[j].f)
  }

  /** Instantiated: the references in globals and tables are declared. */
  ghost predicate Instantiated(p: Plan, st: Store) {
    && |st.globals| == p.counter
    && ValuesDeclared(p, st.globals)
    && ValuesDeclared(p, st.table)
    && Calm(st.world)
  }

  /** Equal up to renumbered references and the countdown. */
  ghost predicate SameResult(p: Plan, o: Res, i: Res) {
    match o
    case Done(rs, a) => i.Done? && RelValues(p, rs, i.results) && RelStore(p, a, i.store)
    case Trapped(a) => i.Trapped? && RelStore(p, a, i.store)
    case Threw(a) => i.Threw? && RelStore(p, a, i.store)
    case _ => false
  }

  lemma SimStart(p: Plan, h: Host, j: nat, args: seq<Value>, st: Store, fuel: nat, k: nat)
    requires WellPlanned(p) && Quiet(p.m, h) && k <= 1
    requires j < |p.m.funcs|
    requires Instantiated(p, st) && ValuesDeclared(p, args)
    ensures FollowsInvoke(p, h, j, args, ImageValues(p, args), st, ImageStore(p, st), fuel, k)
  {
    hide AllDeclared, FollowsInvoke, Quiet, Instrument;
    assert RelStore(p, st, ImageStore(p, st));
    assert RelValues(p, args, ImageValues(p, args));
    SimInvoke(p, h, j, args, ImageValues(p, args), st, ImageStore(p, st), fuel, k);
  }

  /**
   * Every call of a defined function, from every instantiated state and under
   * every quiet host: a finished original run is matched by the instrumented
   * one, and a finished instrumented run by the original.
   */
  lemma MeaningPreserved(p: Plan, h: Host, j: nat, args: seq<Value>, st: Store, fuel: nat)
    requires WellPlanned(p) && Quiet(p.m, h)
    requires j < |p.m.funcs|
    requires Instantiated(p, st) && ValuesDeclared(p, args)
    requires !Invoke(p.m, h, j, args, st, fuel).Bad?
    ensures
      var o := Invoke(p.m, h, j, args, st, fuel);
      var m, args', st' := Instrument(p), ImageValues(p, args), ImageStore(p, st);
      && (!o.NoFuel? ==> SameResult(p, o, Invoke(m, h, j, args', st', fuel + 1)))
      && (!Invoke(m, h, j, args', st', fuel).NoFuel? ==> SameResult(p, o, Invoke(m, h, j, args', st', fuel)))
  {
    hide AllDeclared, Invoke, RelStore, RelValues, Quiet, Instantiated, Instrument;
    SimStart(p, h, j, args, st, fuel, 0);
    SimStart(p, h, j, args, st, fuel, 1);
  }

  ghost predicate Halts(m: Module, h: Host, j: nat, args: seq<Value>, st: Store)
    requires Wellformed(m)
    requires j < |m.funcs|
  {
    exists fuel: nat :: !Invoke(m, h, j, args, st, fuel).NoFuel?
  }

  /** Checks neither introduce nor remove divergence. */
  lemma DivergencePreserved(p: Plan, h: Host, j: nat, args: seq<Value>, st: Store)
    requires WellPlanned(p) && Quiet(p.m, h)
    requires j < |p.m.funcs|
    requires Instantiated(p, st) && ValuesDeclared(p, args)
    requires forall fuel: nat :: !Invoke(p.m, h, j, args, st, fuel).Bad?
    ensures Halts(p.m, h, j, args, st) <==> Halts(Instrument(p), h, j, ImageValues(p, args), ImageStore(p, st))
  {
    hide AllDeclared, Invoke, RelStore, RelValues, Quiet, Instantiated, ImageStore, ImageValues;
    var m, args', st' := Instrument(p), ImageValues(p, args), ImageStore(p, st);
    if Halts(p.m, h, j, args, st) {
      var fuel: nat :| !Invoke(p.m, h, j, args, st, fuel).NoFuel?;
      MeaningPreserved(p, h, j, args, st, fuel);
      assert !Invoke(m, h, j, args', st', fuel + 1).NoFuel?;
    }
    if Halts(m, h, j, args', st') {
      var fuel: nat :| !Invoke(m, h, j, args', st', fuel).NoFuel?;
      MeaningPreserved(p, h, j, args, st, fuel);
      assert !Invoke(p.m, h, j, args, st, fuel).NoFuel?;
    }
  }
}
