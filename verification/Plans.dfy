/** From the sections to the code: what the section pass accepts is what the code rewrite relies on. */
module Plans {
  import opened Wasm
  import opened Rewriter
  import S = Sections
  import P = SectionPass
  import IndexSpace

  // ------------------------------------------------------------- references

  /** The functions that code takes as values. */
  function CodeRefs(code: Code): set<nat> {
    match code
    case End => {}
    case Then(i, rest) => InstrRefs(i) + CodeRefs(rest)
  }

  function InstrRefs(i: Instr): set<nat> {
    match i
    case RefFunc(f) => {f}
    case Block(_, b) => CodeRefs(b)
    case Loop(b) => CodeRefs(b)
    case If(_, t, e) => CodeRefs(t) + CodeRefs(e)
    case TryTable(_, _, b) => CodeRefs(b)
    case _ => {}
  }

  lemma {:induction false} RefsDeclared(p: Plan, code: Code)
    ensures AllDeclared(p, code) <==> forall f <- CodeRefs(code) :: Declared(p, f)
  {
    hide Declared;
    if code.Then? {
      InstrRefsDeclared(p, code.first);
      RefsDeclared(p, code.rest);
    }
  }

  lemma {:induction false} InstrRefsDeclared(p: Plan, i: Instr)
    ensures InstrDeclared(p, i) <==> forall f <- InstrRefs(i) :: Declared(p, f)
  {
    hide Declared;
    match i
    case RefFunc(_) =>
    case Block(_, b) => RefsDeclared(p, b);
    case Loop(b) => RefsDeclared(p, b);
    case If(_, t, e) =>
      RefsDeclared(p, t);
      RefsDeclared(p, e);
    case TryTable(_, _, b) => RefsDeclared(p, b);
    case _ =>
  }

  // ----------------------------------------------------------------- modules

  /** The module whose decoded sections these are; the layout is what they say. */
  ghost predicate Stands(sections: seq<S.Section>, l: S.Layout, m: Module) {
    && |m.types| == l.types
    && |m.imports| == |l.imports|
    && (forall j | 0 <= j < |m.imports| :: m.imports[j].ty == l.imports[j] && m.imports[j].kind != Poll)
    && |m.funcs| == |l.functions|
    && (forall j | 0 <= j < |m.funcs| :: m.funcs[j].ty == l.functions[j])
    && m.counter.None? && !m.exitReturns
    && forall s <- sections :: s.Code? ==> Decodes(s.bodies, m)
  }

  ghost predicate Decodes(bodies: seq<seq<S.Const>>, m: Module) {
    |bodies| == |m.funcs| && forall j | 0 <= j < |bodies| :: S.ConstantRefs(bodies[j]) == CodeRefs(m.funcs[j].body)
  }

  function PlanOf(l: S.Layout, m: Module, interval: u32): Plan {
    Plan(m, interval, S.Countdown(l), l.thunks)
  }

  // ------------------------------------------------------------------- types

  lemma InOrder(sections: seq<S.Section>, maximum: nat, k: nat, i: nat)
    requires P.Accepted(sections, maximum)
    requires k < i < |sections| && S.Order(sections[i]) > 0
    ensures S.Order(sections[k]) < S.Order(sections[i])
  {
    hide P.BadImport, P.BadType, P.Reserved, P.Strays, S.Order;
    assert sections[..i][k] == sections[k];
    assert !P.Fault(sections[..i], sections[i], maximum);
  }

  /** Where a section stands, the types before it are all of the module's. */
  lemma TypesBefore(sections: seq<S.Section>, maximum: nat, l: S.Layout, k: nat)
    requires P.Accepted(sections, maximum) && P.Told(l, sections)
    requires k < |sections| && S.Order(sections[k]) > 1
    ensures P.TypesOf(sections[..k]) == l.types
  {
    hide P.Accepted, P.Fault, P.Escapes;
    P.TypesAre(sections[..k]);
    if forall r <- sections[..k] :: !r.Types? {
      forall i | 0 <= i < |sections| ensures !sections[i].Types? {
        if i > k {
          if S.Order(sections[i]) > 0 {
            InOrder(sections, maximum, k, i);
          }
        } else if i < k {
          assert sections[..k][i] == sections[i];
        }
      }
    } else {
      var r :| r in sections[..k] && r.Types? && r.count == P.TypesOf(sections[..k]);
      assert P.ReadAs(l, r);
    }
  }

  lemma {:induction false} TypesOfImports(items: seq<S.ImportItem>, types: nat)
    requires !P.BadImport(items, types)
    ensures forall t <- P.FunctionTypes(items) :: t < types
  {
    if items != [] {
      var most, last := items[..|items| - 1], items[|items| - 1];
      assert !P.BadImport(most, types) by {
        forall i | 0 <= i < |most| && most[i].FuncImport? ensures most[i].ty < types {
          assert items[i] == most[i];
        }
      }
      TypesOfImports(most, types);
    }
  }

  lemma ImportsInRange(sections: seq<S.Section>, maximum: nat, l: S.Layout)
    requires P.Accepted(sections, maximum) && P.Told(l, sections)
    ensures forall t <- l.imports :: t < l.types
  {
    if l.imports != [] {
      var s :| s in sections && s.Imports?;
      var k :| 0 <= k < |sections| && sections[k] == s;
      assert P.ReadAs(l, s) && !P.Fault(sections[..k], s, maximum);
      TypesBefore(sections, maximum, l, k);
      TypesOfImports(s.items, l.types);
    }
  }

  lemma FunctionsInRange(sections: seq<S.Section>, maximum: nat, l: S.Layout)
    requires P.Accepted(sections, maximum) && P.Told(l, sections)
    ensures forall t <- l.functions :: t < l.types
  {
    if l.functions != [] {
      var s :| s in sections && s.Functions?;
      var k :| 0 <= k < |sections| && sections[k] == s;
      assert P.ReadAs(l, s) && !P.Fault(sections[..k], s, maximum);
      TypesBefore(sections, maximum, l, k);
    }
  }

  // --------------------------------------------------------------- the bridge

  lemma CodeIsThere(sections: seq<S.Section>, maximum: nat, l: S.Layout)
    requires P.Accepted(sections, maximum) && P.Told(l, sections) && l.functions != []
    ensures exists s <- sections :: s.Code?
  {
    P.DeclaredAre(l, sections, sections);
  }

  lemma BodyDeclared(sections: seq<S.Section>, l: S.Layout, m: Module, interval: u32, s: S.Section, j: nat)
    requires Stands(sections, l, m) && s in sections && s.Code? && j < |m.funcs| && l.functions != []
    requires S.AllKnown(l, S.ListRefs(s.bodies))
    ensures AllDeclared(PlanOf(l, m, interval), m.funcs[j].body)
  {
    assert Decodes(s.bodies, m);
    hide Stands;
    forall f | f in CodeRefs(m.funcs[j].body) ensures Declared(PlanOf(l, m, interval), f) {
      var i :| 0 <= i < |s.bodies[j]| && s.bodies[j][i].RefFunc? && s.bodies[j][i].f == f;
      assert f in S.ListRefs(s.bodies);
      assert S.Known(l, f);
      assert |m.imports| == |l.imports|;
    }
    RefsDeclared(PlanOf(l, m, interval), m.funcs[j].body);
  }

  lemma BodiesDeclared(sections: seq<S.Section>, maximum: nat, l: S.Layout, out: seq<S.Out>, m: Module, interval: u32)
    requires P.Accepted(sections, maximum) && P.Correct(sections, l, out) && Stands(sections, l, m)
    ensures forall j | 0 <= j < |m.funcs| :: AllDeclared(PlanOf(l, m, interval), m.funcs[j].body)
  {
    assert P.Told(l, sections) && |m.funcs| == |l.functions|;
    if m.funcs != [] {
      CodeIsThere(sections, maximum, l);
      var s :| s in sections && s.Code?;
      assert S.AllKnown(l, S.Referring(s));
      hide P.Accepted, P.Correct, Stands, AllDeclared, S.AllKnown;
      forall j | 0 <= j < |m.funcs| ensures AllDeclared(PlanOf(l, m, interval), m.funcs[j].body) {
        BodyDeclared(sections, l, m, interval, s, j);
      }
    }
  }

  lemma TypesInRange(sections: seq<S.Section>, maximum: nat, l: S.Layout, m: Module)
    requires P.Accepted(sections, maximum) && P.Told(l, sections) && Stands(sections, l, m)
    ensures Wellformed(m)
  {
    hide P.Accepted, P.Told, Decodes;
    ImportsInRange(sections, maximum, l);
    FunctionsInRange(sections, maximum, l);
    assert forall j | 0 <= j < |l.imports| :: l.imports[j] in l.imports;
    assert forall j | 0 <= j < |l.functions| :: l.functions[j] in l.functions;
  }

  /**
   * Whatever the section pass accepts, the plan it arrives at is one that the
   * code rewrite is correct for: types are in range, every reference in the
   * code was declared before it, and the thunks are imports.
   */
  lemma PlanHolds(sections: seq<S.Section>, maximum: nat, l: S.Layout, out: seq<S.Out>, m: Module, interval: u32)
    requires P.Accepted(sections, maximum) && P.Correct(sections, l, out)
    requires Stands(sections, l, m) && 1 <= interval < 0x8000_0000
    ensures WellPlanned(PlanOf(l, m, interval)) && IndexSpace.Fits(l, PlanOf(l, m, interval))
  {
    assert P.Told(l, sections) && S.ThunksOk(l);
    hide P.Accepted, P.Correct, P.Told, AllDeclared, Wellformed, Decodes;
    TypesInRange(sections, maximum, l, m);
    BodiesDeclared(sections, maximum, l, out, m, interval);
  }
}
