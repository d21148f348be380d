/**
 * Two laws of runs, for any module: what every host step keeps, the run
 * keeps; and hosts that agree until a stop give runs that agree until then.
 */
module Runs {
  import opened Wasm

  // ------------------------------------------------------- host invariants

  ghost predicate Keeps(h: Host, inv: World -> bool, w: World) {
    inv(w) ==>
      && inv(h.poll(w).world)
      && forall f, args, memory :: inv(h.call(w, f, args, memory).world)
  }

  /** Every answer of the host keeps `inv`. */
  ghost predicate Invariant(h: Host, inv: World -> bool) {
    forall w :: Keeps(h, inv, w)
  }

  ghost predicate OutKeeps(inv: World -> bool, o: Out) {
    o.Stuck? || inv(o.s.store.world)
  }

  ghost predicate ResKeeps(inv: World -> bool, r: Res) {
    r.Bad? || inv(r.store.world)
  }

  lemma PlainWorld(m: Module, i: Instr, s: State)
    requires Simple(i)
    ensures var o := Plain(m, i, s); o.Stuck? || (!o.Tail? && o.s.store.world == s.store.world)
  {
    hide Fill, Apply;
  }

  lemma {:induction false} ExecKeeps(m: Module, h: Host, inv: World -> bool, code: Code, s: State, fuel: nat)
    requires Wellformed(m) && Invariant(h, inv)
    requires inv(s.store.world)
    ensures OutKeeps(inv, Exec(m, h, code, s, fuel))
    decreases fuel, 1, code
  {
    hide Step, Invariant;
    if code.Then? {
      StepKeeps(m, h, inv, code.first, s, fuel);
      var o := Step(m, h, code.first, s, fuel);
      if o.Next? {
        ExecKeeps(m, h, inv, code.rest, o.s, fuel);
      }
    }
  }

  lemma {:induction false} StepKeeps(m: Module, h: Host, inv: World -> bool, i: Instr, s: State, fuel: nat)
    requires Wellformed(m) && Invariant(h, inv)
    requires inv(s.store.world)
    ensures OutKeeps(inv, Step(m, h, i, s, fuel))
    decreases fuel, 1, i, 1
  {
    hide Exec, CallFunction, Plain, Invariant, Lookup;
    var t := Tick(s, i);
    if Simple(i) {
      PlainWorld(m, i, t);
    } else {
      match i
      case Block(_, _) => BlockKeeps(m, h, inv, i, s, fuel);
      case TryTable(_, _, _) => BlockKeeps(m, h, inv, i, s, fuel);
      case If(_, _, _) => BlockKeeps(m, h, inv, i, s, fuel);
      case Loop(body) =>
        ExecKeeps(m, h, inv, body, t, fuel);
        var o := Exec(m, h, body, t, fuel);
        if o.Jump? && o.l == 0 && fuel > 0 {
          StepKeeps(m, h, inv, i, o.s.(stack := s.stack), fuel - 1);
        }
      case Call(f) =>
        StepCall(m, h, f, s, fuel);
        if f < |m.imports| + |m.funcs| && |s.stack| >= TypeOf(m, f).params {
          var (t', args) := Args(t, TypeOf(m, f).params);
          CallKeeps(m, h, inv, f, args, t'.store, fuel);
        }
      case CallIndirect(_) => IndirectKeeps(m, h, inv, i, s, fuel);
      case _ =>
    }
  }

  lemma {:induction false} BlockKeeps(m: Module, h: Host, inv: World -> bool, i: Instr, s: State, fuel: nat)
    requires Wellformed(m) && Invariant(h, inv)
    requires (i.Block? || i.TryTable? || i.If?) && inv(s.store.world)
    ensures OutKeeps(inv, Step(m, h, i, s, fuel))
    decreases fuel, 1, i, 0
  {
    hide Exec, Step, Invariant;
    var t := Tick(s, i);
    if i.If? {
      StepIf(m, h, i, s, fuel);
      if |t.stack| > 0 && Top(t.stack).I32? {
        var chosen := if Top(t.stack).n != 0 then i.thn else i.els;
        ExecKeeps(m, h, inv, chosen, t.(stack := Under(t.stack, 1)), fuel);
      }
    } else {
      StepBlock(m, h, i, s, fuel);
      ExecKeeps(m, h, inv, i.body, t, fuel);
    }
  }

  lemma {:induction false} IndirectKeeps(m: Module, h: Host, inv: World -> bool, i: Instr, s: State, fuel: nat)
    requires Wellformed(m) && Invariant(h, inv)
    requires i.CallIndirect? && inv(s.store.world)
    ensures OutKeeps(inv, Step(m, h, i, s, fuel))
    decreases fuel, 1, i, 0
  {
    hide Exec, Step, CallFunction, Invariant, Lookup;
    var t := Tick(s, i);
    var target := Lookup(m, i.ty, t);
    if target.Found? {
      StepIndirect(m, h, i, target.f, s, fuel);
      var t1 := t.(stack := Under(t.stack, 1));
      if |t1.stack| >= m.types[i.ty].params {
        var (t', args) := Args(t1, m.types[i.ty].params);
        CallKeeps(m, h, inv, target.f, args, t'.store, fuel);
      }
    } else {
      StepNowhere(m, h, i, s, fuel);
    }
  }

  lemma {:induction false} CallKeeps(m: Module, h: Host, inv: World -> bool, f: nat, args: seq<Value>, st: Store, fuel: nat)
    requires Wellformed(m) && Invariant(h, inv)
    requires inv(st.world)
    ensures ResKeeps(inv, CallFunction(m, h, f, args, st, fuel))
    decreases fuel, 0
  {
    hide Invoke;
    if f < |m.imports| {
      assert Keeps(h, inv, st.world);
    } else if f - |m.imports| < |m.funcs| && fuel > 0 {
      InvokeKeeps(m, h, inv, f - |m.imports|, args, st, fuel - 1);
    }
  }

  lemma {:induction false} InvokeKeeps(m: Module, h: Host, inv: World -> bool, k: nat, args: seq<Value>, st: Store, fuel: nat)
    requires Wellformed(m) && Invariant(h, inv)
    requires k < |m.funcs|
    requires inv(st.world)
    ensures ResKeeps(inv, Invoke(m, h, k, args, st, fuel))
    decreases fuel, 2
  {
    hide Exec, CallFunction, Invariant;
    var s := Frame(m, k, args, st);
    ExecKeeps(m, h, inv, m.funcs[k].body, s, fuel);
    var o := Exec(m, h, m.funcs[k].body, s, fuel);
    if o.Tail? {
      CallKeeps(m, h, inv, o.f, o.args, Exited'(o.s.store, st.meter.depth), fuel);
    }
  }

  /** A recorded stop, its reason and the imports' trace never change again. */
  ghost predicate Sticky(h: Host) {
    forall w: World :: w.stop.Some? ==> Keeps(h, v => v == w, w)
  }

  lemma StopIsFinal(m: Module, h: Host, k: nat, args: seq<Value>, st: Store, fuel: nat)
    requires Wellformed(m) && Sticky(h)
    requires k < |m.funcs|
    requires st.world.stop.Some?
    ensures var r := Invoke(m, h, k, args, st, fuel); !r.Bad? ==> r.store.world == st.world
  {
    var w := st.world;
    var inv := v => v == w;
    forall v ensures Keeps(h, inv, v) {
      if v == w {
        assert Keeps(h, u => u == w, w);
      }
    }
    InvokeKeeps(m, h, inv, k, args, st, fuel);
  }

  // ------------------------------------------------------- agreeing hosts

  /** The hosts answer alike unless the answer stops the guest. */
  ghost predicate Alike(h: Host, g: Host, w: World) {
    && (h.poll(w).world.stop.None? ==> g.poll(w) == h.poll(w))
    && (forall f, args, memory ::
          h.call(w, f, args, memory).world.stop.None? ==> g.call(w, f, args, memory) == h.call(w, f, args, memory))
  }

  predicate IsStopped(w: World) {
    w.stop.Some?
  }

  ghost predicate AlikeUntilStop(h: Host, g: Host) {
    Invariant(h, IsStopped) && forall w :: Alike(h, g, w)
  }

  /** Nothing is said of code that does not validate. */
  ghost predicate OutAlike(o: Out, q: Out) {
    o.Stuck? || IsStopped(o.s.store.world) || q == o
  }

  ghost predicate ResAlike(r: Res, q: Res) {
    r.Bad? || IsStopped(r.store.world) || q == r
  }

  lemma {:induction false} ExecAlike(m: Module, h: Host, g: Host, code: Code, s: State, fuel: nat)
    requires Wellformed(m) && AlikeUntilStop(h, g)
    ensures OutAlike(Exec(m, h, code, s, fuel), Exec(m, g, code, s, fuel))
    decreases fuel, 1, code
  {
    hide Step, Invariant;
    if code.Then? {
      StepAlike(m, h, g, code.first, s, fuel);
      var o := Step(m, h, code.first, s, fuel);
      if o.Next? {
        if IsStopped(o.s.store.world) {
          ExecKeeps(m, h, IsStopped, code.rest, o.s, fuel);
        } else {
          ExecAlike(m, h, g, code.rest, o.s, fuel);
        }
      }
    }
  }

  lemma {:induction false} StepAlike(m: Module, h: Host, g: Host, i: Instr, s: State, fuel: nat)
    requires Wellformed(m) && AlikeUntilStop(h, g)
    ensures OutAlike(Step(m, h, i, s, fuel), Step(m, g, i, s, fuel))
    decreases fuel, 1, i, 1
  {
    hide Exec, CallFunction, Plain, Alike, Invariant, Lookup, Resume;
    var t := Tick(s, i);
    match i
    case Block(_, _) => BlockAlike(m, h, g, i, s, fuel);
    case TryTable(_, _, _) => BlockAlike(m, h, g, i, s, fuel);
    case If(_, _, _) => BlockAlike(m, h, g, i, s, fuel);
    case Loop(body) => LoopAlike(m, h, g, i, s, fuel);
    case Call(f) =>
      StepCall(m, h, f, s, fuel);
      StepCall(m, g, f, s, fuel);
      if f < |m.imports| + |m.funcs| && |s.stack| >= TypeOf(m, f).params {
        var (t', args) := Args(t, TypeOf(m, f).params);
        CallAlike(m, h, g, f, args, t'.store, fuel);
        ResumeAlike(t', CallFunction(m, h, f, args, t'.store, fuel), CallFunction(m, g, f, args, t'.store, fuel));
      }
    case CallIndirect(_) => IndirectAlike(m, h, g, i, s, fuel);
    case _ =>
  }

  lemma {:induction false} BlockAlike(m: Module, h: Host, g: Host, i: Instr, s: State, fuel: nat)
    requires Wellformed(m) && AlikeUntilStop(h, g)
    requires i.Block? || i.TryTable? || i.If?
    ensures OutAlike(Step(m, h, i, s, fuel), Step(m, g, i, s, fuel))
    decreases fuel, 1, i, 0
  {
    hide Exec, Step, Alike, Invariant;
    var t := Tick(s, i);
    if i.If? {
      StepIf(m, h, i, s, fuel);
      StepIf(m, g, i, s, fuel);
      if |t.stack| > 0 && Top(t.stack).I32? {
        var chosen := if Top(t.stack).n != 0 then i.thn else i.els;
        ExecAlike(m, h, g, chosen, t.(stack := Under(t.stack, 1)), fuel);
      }
    } else {
      StepBlock(m, h, i, s, fuel);
      StepBlock(m, g, i, s, fuel);
      ExecAlike(m, h, g, i.body, t, fuel);
    }
  }

  lemma {:induction false} LoopAlike(m: Module, h: Host, g: Host, i: Instr, s: State, fuel: nat)
    requires Wellformed(m) && AlikeUntilStop(h, g)
    requires i.Loop?
    ensures OutAlike(Step(m, h, i, s, fuel), Step(m, g, i, s, fuel))
    decreases fuel, 1, i, 0
  {
    hide Exec, Step, Alike, Invariant;
    var t := Tick(s, i);
    StepLoop(m, h, i, s, fuel);
    StepLoop(m, g, i, s, fuel);
    ExecAlike(m, h, g, i.body, t, fuel);
    var o := Exec(m, h, i.body, t, fuel);
    if o.Jump? && o.l == 0 && fuel > 0 {
      var s1 := o.s.(stack := s.stack);
      if IsStopped(s1.store.world) {
        StepKeeps(m, h, IsStopped, i, s1, fuel - 1);
      } else {
        StepAlike(m, h, g, i, s1, fuel - 1);
      }
    }
  }

  lemma {:induction false} IndirectAlike(m: Module, h: Host, g: Host, i: Instr, s: State, fuel: nat)
    requires Wellformed(m) && AlikeUntilStop(h, g)
    requires i.CallIndirect?
    ensures OutAlike(Step(m, h, i, s, fuel), Step(m, g, i, s, fuel))
    decreases fuel, 1, i, 0
  {
    hide Exec, Step, CallFunction, Alike, Invariant, Lookup, Resume;
    var t := Tick(s, i);
    var target := Lookup(m, i.ty, t);
    if target.Found? {
      StepIndirect(m, h, i, target.f, s, fuel);
      StepIndirect(m, g, i, target.f, s, fuel);
      var t1 := t.(stack := Under(t.stack, 1));
      if |t1.stack| >= m.types[i.ty].params {
        var (t', args) := Args(t1, m.types[i.ty].params);
        CallAlike(m, h, g, target.f, args, t'.store, fuel);
        ResumeAlike(t', CallFunction(m, h, target.f, args, t'.store, fuel),
                    CallFunction(m, g, target.f, args, t'.store, fuel));
      }
    } else {
      StepNowhere(m, h, i, s, fuel);
      StepNowhere(m, g, i, s, fuel);
    }
  }

  lemma ResumeAlike(s: State, r: Res, q: Res)
    requires ResAlike(r, q)
    ensures OutAlike(Resume(s, r), Resume(s, q))
  {
  }

  lemma {:induction false} CallAlike(m: Module, h: Host, g: Host, f: nat, args: seq<Value>, st: Store, fuel: nat)
    requires Wellformed(m) && AlikeUntilStop(h, g)
    ensures ResAlike(CallFunction(m, h, f, args, st, fuel), CallFunction(m, g, f, args, st, fuel))
    decreases fuel, 0
  {
    hide Invoke, Invariant;
    if f < |m.imports| {
      assert Alike(h, g, st.world);
    } else if f - |m.imports| < |m.funcs| && fuel > 0 {
      InvokeAlike(m, h, g, f - |m.imports|, args, st, fuel - 1);
    }
  }

  lemma {:induction false} InvokeAlike(m: Module, h: Host, g: Host, k: nat, args: seq<Value>, st: Store, fuel: nat)
    requires Wellformed(m) && AlikeUntilStop(h, g)
    requires k < |m.funcs|
    ensures ResAlike(Invoke(m, h, k, args, st, fuel), Invoke(m, g, k, args, st, fuel))
    decreases fuel, 2
  {
    hide Exec, CallFunction, Alike, Invariant;
    var s := Frame(m, k, args, st);
    ExecAlike(m, h, g, m.funcs[k].body, s, fuel);
    var o := Exec(m, h, m.funcs[k].body, s, fuel);
    if o.Tail? && o.f < |m.imports| + |m.funcs| {
      var st' := Exited'(o.s.store, st.meter.depth);
      if IsStopped(st'.world) {
        CallKeeps(m, h, IsStopped, o.f, o.args, st', fuel);
      } else {
        CallAlike(m, h, g, o.f, o.args, st', fuel);
      }
    }
  }
}
