/**
 * Fuel is a bound on work: a run of any module that uses up its fuel has
 * executed an instruction for every unit, unless a poll began to count anew.
 */
module Exhaustion {
  import opened Wasm

  /** From t to u, and without a poll in between at least `n` more instructions. */
  ghost predicate Burnt(t: Meter, u: Meter, n: nat) {
    && |t.stretches| <= |u.stretches|
    && (|u.stretches| == |t.stretches| ==> u.work >= t.work + n && u.pollDepth == t.pollDepth)
  }

  /** A tail call has run its own instruction. */
  function Price(o: Out, fuel: nat): nat {
    if o.OutOfFuel? then fuel else if o.Tail? then 1 else 0
  }

  ghost predicate OutBurns(t: Meter, o: Out, fuel: nat) {
    o.Stuck? || Burnt(t, o.s.store.meter, Price(o, fuel))
  }

  /** The caller's instruction pays for the unit that the call itself takes. */
  ghost predicate ResBurns(t: Meter, r: Res, fuel: nat) {
    r.Bad? || Burnt(t, r.store.meter, if r.NoFuel? && fuel > 0 then fuel - 1 else 0)
  }

  lemma PlainBurns(m: Module, i: Instr, s: State)
    requires Simple(i)
    ensures var o := Plain(m, i, s); o.Stuck? || (!o.Tail? && !o.OutOfFuel? && Burnt(s.store.meter, o.s.store.meter, 0))
  {
    hide Fill, Apply;
  }

  lemma TickBurns(s: State, i: Instr)
    ensures Burnt(s.store.meter, Tick(s, i).store.meter, 1)
  {
  }

  lemma {:induction false} ExecBurns(m: Module, h: Host, code: Code, s: State, fuel: nat)
    requires Wellformed(m)
    ensures OutBurns(s.store.meter, Exec(m, h, code, s, fuel), fuel)
    decreases fuel, 1, code
  {
    hide Step;
    if code.Then? {
      StepBurns(m, h, code.first, s, fuel);
      var o := Step(m, h, code.first, s, fuel);
      if o.Next? {
        ExecBurns(m, h, code.rest, o.s, fuel);
      }
    }
  }

  lemma {:induction false} StepBurns(m: Module, h: Host, i: Instr, s: State, fuel: nat)
    requires Wellformed(m)
    ensures OutBurns(s.store.meter, Step(m, h, i, s, fuel), fuel)
    decreases fuel, 1, i, 1
  {
    hide Exec, CallFunction, Plain, Lookup;
    var t := Tick(s, i);
    TickBurns(s, i);
    if Simple(i) {
      PlainBurns(m, i, t);
    } else {
      match i
      case Block(_, _) => BlockBurns(m, h, i, s, fuel);
      case TryTable(_, _, _) => BlockBurns(m, h, i, s, fuel);
      case If(_, _, _) => BlockBurns(m, h, i, s, fuel);
      case Loop(body) =>
        ExecBurns(m, h, body, t, fuel);
        var o := Exec(m, h, body, t, fuel);
        if o.Jump? && o.l == 0 && fuel > 0 {
          StepBurns(m, h, i, o.s.(stack := s.stack), fuel - 1);
        }
      case Call(f) =>
        StepCall(m, h, f, s, fuel);
        if f < |m.imports| + |m.funcs| && |s.stack| >= TypeOf(m, f).params {
          var (t', args) := Args(t, TypeOf(m, f).params);
          CallBurns(m, h, f, args, t'.store, fuel);
        }
      case CallIndirect(_) => IndirectBurns(m, h, i, s, fuel);
      case _ =>
    }
  }

  lemma {:induction false} BlockBurns(m: Module, h: Host, i: Instr, s: State, fuel: nat)
    requires Wellformed(m) && (i.Block? || i.TryTable? || i.If?)
    ensures OutBurns(s.store.meter, Step(m, h, i, s, fuel), fuel)
    decreases fuel, 1, i, 0
  {
    hide Exec, Step;
    var t := Tick(s, i);
    TickBurns(s, i);
    if i.If? {
      StepIf(m, h, i, s, fuel);
      if |t.stack| > 0 && Top(t.stack).I32? {
        var chosen := if Top(t.stack).n != 0 then i.thn else i.els;
        ExecBurns(m, h, chosen, t.(stack := Under(t.stack, 1)), fuel);
      }
    } else {
      StepBlock(m, h, i, s, fuel);
      ExecBurns(m, h, i.body, t, fuel);
    }
  }

  lemma {:induction false} IndirectBurns(m: Module, h: Host, i: Instr, s: State, fuel: nat)
    requires Wellformed(m) && i.CallIndirect?
    ensures OutBurns(s.store.meter, Step(m, h, i, s, fuel), fuel)
    decreases fuel, 1, i, 0
  {
    hide Exec, Step, CallFunction, Lookup;
    var t := Tick(s, i);
    TickBurns(s, i);
    var target := Lookup(m, i.ty, t);
    if target.Found? {
      StepIndirect(m, h, i, target.f, s, fuel);
      var t1 := t.(stack := Under(t.stack, 1));
      if |t1.stack| >= m.types[i.ty].params {
        var (t', args) := Args(t1, m.types[i.ty].params);
        CallBurns(m, h, target.f, args, t'.store, fuel);
      }
    } else {
      StepNowhere(m, h, i, s, fuel);
    }
  }

  lemma {:induction false} CallBurns(m: Module, h: Host, f: nat, args: seq<Value>, st: Store, fuel: nat)
    requires Wellformed(m)
    ensures ResBurns(st.meter, CallFunction(m, h, f, args, st, fuel), fuel)
    decreases fuel, 0
  {
    hide Invoke;
    if f >= |m.imports| && f - |m.imports| < |m.funcs| && fuel > 0 {
      InvokeBurns(m, h, f - |m.imports|, args, st, fuel - 1);
    }
  }

  /** Out of fuel, a call has run at least that many instructions since it began, or since a poll. */
  lemma {:induction false} InvokeBurns(m: Module, h: Host, k: nat, args: seq<Value>, st: Store, fuel: nat)
    requires Wellformed(m)
    requires k < |m.funcs|
    ensures var r := Invoke(m, h, k, args, st, fuel);
            r.Bad? || Burnt(st.meter, r.store.meter, if r.NoFuel? then fuel else 0)
    decreases fuel, 2
  {
    hide Exec, CallFunction;
    var s := Frame(m, k, args, st);
    ExecBurns(m, h, m.funcs[k].body, s, fuel);
    var o := Exec(m, h, m.funcs[k].body, s, fuel);
    if o.Tail? {
      CallBurns(m, h, o.f, o.args, Exited'(o.s.store, st.meter.depth), fuel);
    }
  }
}
