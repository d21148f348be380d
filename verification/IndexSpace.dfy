/** What the section pass means for the function index space of its output. */
module IndexSpace {
  import opened Prelude
  import opened Sections
  import SectionPass
  import Rewriter

  /** The type of a function of the original module. */
  function TypeBefore(l: Layout, f: nat): nat
    requires f < |l.imports| + |l.functions|
  {
    if f < |l.imports| then l.imports[f] else l.functions[f - |l.imports|]
  }

  /**
   * The type of a function of the output: the imports, the added one of the
   * added type, then the entries of the function section.
   */
  function TypeAfter(l: Layout, f: nat): Option<nat>
    requires ThunksOk(l)
  {
    var entries := l.functions + ImportTypes(l, l.thunks);
    if f < |l.imports| then Some(l.imports[f])
    else if f == |l.imports| then Some(l.types)
    else if f - |l.imports| - 1 < |entries| then Some(entries[f - |l.imports| - 1])
    else None
  }

  /**
   * Every function reference of the output names a function of the type of
   * the one it named, beyond the imports: a defined function's own image, or
   * the one thunk of an escaping import.
   */
  lemma ReferenceResolves(l: Layout, f: nat)
    requires ThunksOk(l) && l.functions != []
    requires f < |l.imports| + |l.functions| && Known(l, f)
    ensures
      var g := Reference(l, f);
      && g > |l.imports|
      && TypeAfter(l, g) == Some(TypeBefore(l, f))
      && (f >= |l.imports| <==> g <= |l.imports| + |l.functions|)
      && (f < |l.imports| ==> l.thunks[g - |l.imports| - 1 - |l.functions|] == f)
  {
    if f < |l.imports| {
      var k := Rewriter.IndexOf(l.thunks, f);
      assert (l.functions + ImportTypes(l, l.thunks))[|l.functions| + k] == l.imports[l.thunks[k]];
    }
  }

  lemma ReferencesDiffer(l: Layout, f: nat, g: nat)
    requires ThunksOk(l) && l.functions != []
    requires f < |l.imports| + |l.functions| && g < |l.imports| + |l.functions| && Known(l, f) && Known(l, g)
    requires Reference(l, f) == Reference(l, g)
    ensures f == g
  {
    hide Reference, ThunksOk;
    ReferenceResolves(l, f);
    ReferenceResolves(l, g);
    if f >= |l.imports| && g >= |l.imports| {
      ReferenceOfDefined(l, f);
      ReferenceOfDefined(l, g);
    }
  }

  lemma ReferenceOfDefined(l: Layout, f: nat)
    requires f >= |l.imports|
    ensures Reference(l, f) == f + 1
  {
  }

  /** Direct calls and exports keep imports, and shift everything else onto its own image. */
  lemma ShiftResolves(l: Layout, f: nat)
    requires ThunksOk(l) && f < |l.imports| + |l.functions|
    ensures TypeAfter(l, Shift(l, f)) == Some(TypeBefore(l, f))
    ensures Shift(l, f) != |l.imports|
  {
  }

  /** Each kind of section appears once, so it is the rewritten one wherever the module has it. */
  lemma OncePerKind(sections: seq<Section>, l: Layout, out: seq<Out>, s: Section, t: Out)
    requires SectionPass.Correct(sections, l, out)
    requires s in sections && Order(s) > 0 && t in out && OutOrder(t) == Order(s)
    ensures ThunksOk(l) && t == Rewritten(l, s)
  {
    var u := Rewritten(l, s);
    SameOrder(l, s);
    var i :| 0 <= i < |out| && out[i] == u;
    var j :| 0 <= j < |out| && out[j] == t;
    assert i == j;
  }

  lemma SameOrder(l: Layout, s: Section)
    requires ThunksOk(l)
    ensures OutOrder(Rewritten(l, s)) == Order(s)
  {
  }

  /** The plan of the code rewrite that the layout stands for. */
  predicate Fits(l: Layout, p: Rewriter.Plan) {
    && Rewriter.Imported(p) == |l.imports|
    && |p.m.funcs| == |l.functions|
    && p.thunks == l.thunks
    && p.counter == Countdown(l)
  }

  /**
   * Every ref.func in the code names a function that was declared before the
   * code section, and the code rewrite gives it the same index as every other
   * section does.
   */
  lemma CodeAgrees(sections: seq<Section>, l: Layout, out: seq<Out>, p: Rewriter.Plan, s: Section, f: nat)
    requires SectionPass.Correct(sections, l, out) && Fits(l, p)
    requires s in sections && s.Code? && l.functions != []
    requires f in ListRefs(s.bodies)
    ensures Rewriter.Declared(p, f)
    ensures Rewriter.Reference(p, f) == Reference(l, f)
    ensures f < |l.imports| ==> SectionPass.Escapes(sections, f)
  {
    assert AllKnown(l, Referring(s));
    assert Known(l, f);
  }
}
