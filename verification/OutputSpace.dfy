/**
 * Where every index of the output leads, position by position: to the thing
 * that the index at the same position of the input named.
 */
module OutputSpace {
  import opened Sections
  import opened Prelude
  import BoundMemory
  import IndexSpace
  import SectionPass

  // ----------------------------------------------------------------- spaces

  /** What a function index can name. */
  datatype Entity = Import(k: nat) | Interrupt | Defined(j: nat) | Thunk(of: nat)

  /** The functions of the module, in the order of their indices. */
  function Before(l: Layout): seq<Entity> {
    seq(|l.imports|, k requires 0 <= k < |l.imports| => Import(k))
    + seq(|l.functions|, j requires 0 <= j < |l.functions| => Defined(j))
  }

  /** The functions of the output: one import is added at the end, and the thunks after everything. */
  function After(l: Layout): seq<Entity> {
    seq(|l.imports|, k requires 0 <= k < |l.imports| => Import(k)) + [Interrupt]
    + seq(|l.functions|, j requires 0 <= j < |l.functions| => Defined(j))
    + seq(|l.thunks|, k requires 0 <= k < |l.thunks| => Thunk(l.thunks[k]))
  }

  /** g names in the output what f named in the module. */
  predicate Same(l: Layout, f: nat, g: nat) {
    f < |Before(l)| ==> g < |After(l)| && After(l)[g] == Before(l)[f]
  }

  /** As a value, an import is its thunk; without functions there is no code to take it. */
  predicate SameValue(l: Layout, f: nat, g: nat) {
    if f < |l.imports| && l.functions != [] then g < |After(l)| && After(l)[g] == Thunk(f) else Same(l, f, g)
  }

  lemma ShiftIsSame(l: Layout, f: nat)
    ensures Same(l, f, Shift(l, f))
  {
  }

  lemma ReferenceIsSame(l: Layout, f: nat)
    requires ThunksOk(l) && Known(l, f)
    ensures SameValue(l, f, Reference(l, f))
  {
    if f >= |l.imports| || l.functions == [] {
      assert Reference(l, f) == Shift(l, f);
      ShiftIsSame(l, f);
    }
  }

  /** So it has the type of what f named, and is never the import that the pass added. */
  lemma SameType(l: Layout, f: nat, g: nat)
    requires ThunksOk(l) && f < |l.imports| + |l.functions| && Same(l, f, g)
    ensures g != |l.imports| && IndexSpace.TypeAfter(l, g) == Some(IndexSpace.TypeBefore(l, f))
  {
  }

  // ------------------------------------------------------- one section each

  predicate ConstantCarried(l: Layout, a: Const, b: Const) {
    if a.RefFunc? then b.RefFunc? && SameValue(l, a.f, b.f) else b == a
  }

  predicate ConstantsCarried(l: Layout, a: seq<Const>, b: seq<Const>) {
    |b| == |a| && forall j | 0 <= j < |a| :: ConstantCarried(l, a[j], b[j])
  }

  predicate ListsCarried(l: Layout, a: seq<seq<Const>>, b: seq<seq<Const>>) {
    |b| == |a| && forall i | 0 <= i < |a| :: ConstantsCarried(l, a[i], b[i])
  }

  predicate ExportCarried(l: Layout, a: Export, b: Export) {
    if a.FuncExport? then b.FuncExport? && b.reserved == a.reserved && Same(l, a.f, b.f) else b == a
  }

  predicate ExportsCarried(l: Layout, a: seq<Export>, b: seq<Export>) {
    |b| == |a| && forall j | 0 <= j < |a| :: ExportCarried(l, a[j], b[j])
  }

  predicate NamesCarried(l: Layout, a: seq<nat>, b: seq<nat>) {
    |b| == |a| && forall j | 0 <= j < |a| :: Same(l, a[j], b[j])
  }

  /** The entries of the function section in the order of the output's index space. */
  predicate TypesCarried(l: Layout, a: seq<nat>, b: seq<nat>) {
    && |b| == |l.functions| + |l.thunks| && a == l.functions
    && forall g: nat | |l.imports| < g < |After(l)| ::
         match After(l)[g]
         case Defined(j) => j < |a| && b[g - |l.imports| - 1] == a[j]
         case Thunk(f) => f < |l.imports| && b[g - |l.imports| - 1] == l.imports[f]
         case _ => false
  }

  /** The declared functions are the thunks, which code refers to. */
  predicate ThunksDeclared(l: Layout, declared: seq<nat>) {
    |declared| == |l.thunks|
    && forall k | 0 <= k < |declared| :: declared[k] < |After(l)| && After(l)[declared[k]] == Thunk(l.thunks[k])
  }

  function GlobalsIn(items: seq<ImportItem>): set<nat> {
    set i: nat | i < |items| && items[i].GlobalImport?
  }

  /** How many globals the module imports: the input says so. */
  ghost predicate GlobalsImported(sections: seq<Section>, n: nat) {
    && (forall s <- sections :: s.Imports? ==> |GlobalsIn(s.items)| == n)
    && ((forall s <- sections :: !s.Imports?) ==> n == 0)
  }

  ghost predicate GlobalsDefined(sections: seq<Section>, n: nat) {
    && (forall s <- sections :: s.Globals? ==> |s.inits| == n)
    && ((forall s <- sections :: !s.Globals?) ==> n == 0)
  }

  /** The countdown is the first global after all of the module's. */
  ghost predicate CountdownAt(sections: seq<Section>, index: nat) {
    exists a: nat, b: nat :: GlobalsImported(sections, a) && GlobalsDefined(sections, b) && index == a + b
  }

  /** What becomes of a section, told by where its indices lead. */
  ghost predicate Carried(sections: seq<Section>, l: Layout, s: Section, t: Out) {
    match s
    case Types(count) => t == OutTypes(count + 1) && l.types == count
    case Imports(items) => t == OutImports(items, l.types)
    case Functions(tys) => t.OutFunctions? && TypesCarried(l, tys, t.tys)
    case Memory(payload) =>
      var bounded := BoundMemory.Bounded(payload, l.maximum);
      bounded.Ok? ==> t == OutMemory(bounded.value)
    case Globals(inits) => t.OutGlobals? && ListsCarried(l, inits, t.inits)
    case Exports(es) => t.OutExports? && ExportsCarried(l, es, t.exports) && CountdownAt(sections, t.countdown)
    case Start(f) => t.OutStart? && Same(l, f, t.f)
    case Elements(segments) =>
      t.OutElements? && ListsCarried(l, segments, t.segments) && ThunksDeclared(l, t.declared)
    case Code(bodies) => t.OutCode? && ListsCarried(l, bodies, t.bodies) && t.thunks == l.thunks
    case Names(fs) => t.OutNames? && NamesCarried(l, fs, t.functions)
    case _ => t == Copy(s)
  }

  // ------------------------------------------------------------- the counts

  lemma {:induction false} GlobalCountIs(items: seq<ImportItem>)
    ensures SectionPass.GlobalCount(items) == |GlobalsIn(items)|
  {
    if items != [] {
      var most, last := items[..|items| - 1], items[|items| - 1];
      GlobalCountIs(most);
      assert GlobalsIn(items) == GlobalsIn(most) + if last.GlobalImport? then {|items| - 1} else {};
    }
  }

  lemma CountdownIs(sections: seq<Section>, l: Layout)
    requires SectionPass.Told(l, sections)
    ensures CountdownAt(sections, Countdown(l))
  {
    forall s | s in sections && s.Imports? ensures |GlobalsIn(s.items)| == l.importedGlobals {
      assert SectionPass.ReadAs(l, s);
      GlobalCountIs(s.items);
    }
    forall s | s in sections && s.Globals? ensures |s.inits| == l.definedGlobals {
      assert SectionPass.ReadAs(l, s);
    }
    assert GlobalsImported(sections, l.importedGlobals) && GlobalsDefined(sections, l.definedGlobals);
  }

  /** The function imports before item i, which number its index. */
  function FunctionsBefore(items: seq<ImportItem>, i: nat): set<nat>
    requires i <= |items|
  {
    set j: nat | j < i && items[j].FuncImport?
  }

  /** The function index space begins with the function imports in their order, each with its type. */
  lemma {:induction false} FunctionTypesAre(items: seq<ImportItem>)
    ensures |SectionPass.FunctionTypes(items)| == |FunctionsBefore(items, |items|)|
    ensures forall i | 0 <= i < |items| && items[i].FuncImport? ::
              && |FunctionsBefore(items, i)| < |SectionPass.FunctionTypes(items)|
              && SectionPass.FunctionTypes(items)[|FunctionsBefore(items, i)|] == items[i].ty
  {
    if items != [] {
      var n := |items| - 1;
      var most, last := items[..n], items[n];
      FunctionTypesAre(most);
      assert FunctionsBefore(items, |items|) == FunctionsBefore(most, n) + if last.FuncImport? then {n} else {};
      forall i | 0 <= i <= n ensures FunctionsBefore(items, i) == FunctionsBefore(most, i) {
      }
      forall i | 0 <= i < |items| && items[i].FuncImport?
        ensures |FunctionsBefore(items, i)| < |SectionPass.FunctionTypes(items)|
             && SectionPass.FunctionTypes(items)[|FunctionsBefore(items, i)|] == items[i].ty
      {
        if i < n {
          assert most[i] == items[i];
        }
      }
    }
  }

  // --------------------------------------------------------------- the output

  lemma ListsAre(l: Layout, css: seq<seq<Const>>)
    requires ThunksOk(l) && AllKnown(l, ListRefs(css))
    ensures ListsCarried(l, css, ConstantLists(l, css))
  {
    hide ThunksOk, Known, SameValue, Reference;
    forall i, j | 0 <= i < |css| && 0 <= j < |css[i]|
      ensures ConstantCarried(l, css[i][j], ConstantLists(l, css)[i][j])
    {
      if css[i][j].RefFunc? {
        assert css[i][j].f in ListRefs(css);
        ReferenceIsSame(l, css[i][j].f);
      }
    }
  }

  lemma ExportsAre(l: Layout, es: seq<Export>)
    ensures ExportsCarried(l, es, ExportsOf(l, es))
  {
    hide Same, Shift;
    forall j | 0 <= j < |es| && es[j].FuncExport? ensures Same(l, es[j].f, Shift(l, es[j].f)) {
      ShiftIsSame(l, es[j].f);
    }
  }

  lemma NamesAre(l: Layout, fs: seq<nat>)
    ensures NamesCarried(l, fs, Shifts(l, fs))
  {
    hide Same, Shift;
    forall j | 0 <= j < |fs| ensures Same(l, fs[j], Shift(l, fs[j])) {
      ShiftIsSame(l, fs[j]);
    }
  }

  lemma ThunksAre(l: Layout)
    ensures ThunksDeclared(l, AllThunks(l))
  {
  }

  lemma FunctionsAre(l: Layout)
    requires ThunksOk(l)
    ensures TypesCarried(l, l.functions, l.functions + ImportTypes(l, l.thunks))
  {
  }

  lemma EntriesCarried(sections: seq<Section>, l: Layout, s: Section)
    requires ThunksOk(l) && SectionPass.ReadAs(l, s) && AllKnown(l, Referring(s)) && CountdownAt(sections, Countdown(l))
    requires s.Functions? || s.Exports? || s.Start? || s.Names?
    ensures Carried(sections, l, s, Rewritten(l, s))
  {
    hide CountdownAt, ExportsCarried, NamesCarried, TypesCarried, Same, ExportsOf, Shifts, ImportTypes, AllKnown, ThunksOk;
    match s
    case Functions(_) => FunctionsAre(l);
    case Exports(es) => ExportsAre(l, es);
    case Start(f) => ShiftIsSame(l, f);
    case Names(fs) => NamesAre(l, fs);
  }

  lemma CodeCarried(sections: seq<Section>, l: Layout, s: Section)
    requires ThunksOk(l) && AllKnown(l, Referring(s))
    requires s.Globals? || s.Elements? || s.Code?
    ensures Carried(sections, l, s, Rewritten(l, s))
  {
    hide ListsCarried, ThunksDeclared, ConstantLists, AllThunks, AllKnown, ThunksOk, ListRefs;
    match s
    case Globals(inits) => ListsAre(l, inits);
    case Elements(segments) =>
      ListsAre(l, segments);
      ThunksAre(l);
    case Code(bodies) => ListsAre(l, bodies);
  }

  lemma BecomesCarried(sections: seq<Section>, l: Layout, out: seq<Out>, s: Section)
    requires SectionPass.Correct(sections, l, out) && s in sections
    ensures ThunksOk(l) && Carried(sections, l, s, Rewritten(l, s))
  {
    CountdownIs(sections, l);
    assert SectionPass.ReadAs(l, s) && AllKnown(l, Referring(s)) && ThunksOk(l);
    hide SectionPass.Correct, CountdownAt, AllKnown, ThunksOk, SectionPass.ReadAs, Referring;
    if s.Functions? || s.Exports? || s.Start? || s.Names? {
      hide Carried, Rewritten;
      EntriesCarried(sections, l, s);
    } else if s.Globals? || s.Elements? || s.Code? {
      hide Carried, Rewritten;
      CodeCarried(sections, l, s);
    }
  }

  /**
   * In the output of the pass, the one section of the kind of each section of
   * the module carries it over: what an index names stays what it was.
   */
  lemma IndicesLead(sections: seq<Section>, l: Layout, out: seq<Out>, s: Section)
    requires SectionPass.Correct(sections, l, out)
    requires s in sections && Order(s) > 0
    ensures exists t <- out :: OutOrder(t) == Order(s)
    ensures forall t <- out :: OutOrder(t) == Order(s) ==> Carried(sections, l, s, t)
  {
    BecomesCarried(sections, l, out, s);
    IndexSpace.SameOrder(l, s);
    assert Rewritten(l, s) in out;
    hide SectionPass.Correct, Rewritten, Carried, OutOrder, Order;
    forall t | t in out && OutOrder(t) == Order(s) ensures Carried(sections, l, s, t) {
      IndexSpace.OncePerKind(sections, l, out, s, t);
    }
  }

  lemma ComesFrom(sections: seq<Section>, l: Layout, out: seq<Out>, t: Out)
    requires SectionPass.Correct(sections, l, out) && t in out && !SectionPass.Added(l, t)
    ensures ThunksOk(l) && exists s <- sections :: t == Rewritten(l, s)
  {
    hide SectionPass.Added, ThunksOk, SectionPass.Told, SectionPass.Escaped, SectionPass.Ordered, Rewritten, AllKnown;
  }

  lemma CarriesNames(sections: seq<Section>, l: Layout, s: Section, t: Out)
    requires Carried(sections, l, s, t) && s.Names?
    ensures t.OutNames? && NamesCarried(l, s.functions, t.functions)
  {
    hide NamesCarried;
  }

  /** A name section of the output carries one of the module's. */
  lemma NamesLead(sections: seq<Section>, l: Layout, out: seq<Out>, t: Out)
    requires SectionPass.Correct(sections, l, out)
    requires t in out && t.OutNames?
    ensures exists s <- sections :: s.Names? && NamesCarried(l, s.functions, t.functions)
  {
    hide *;
    NotAdded(l, t);
    ComesFrom(sections, l, out, t);
    var s :| s in sections && t == Rewritten(l, s);
    BecomesCarried(sections, l, out, s);
    NamesCome(l, s);
    CarriesNames(sections, l, s, t);
  }

  lemma NotAdded(l: Layout, t: Out)
    requires t.OutNames?
    ensures !SectionPass.Added(l, t)
  {
  }

  lemma NamesCome(l: Layout, s: Section)
    requires ThunksOk(l) && Rewritten(l, s).OutNames?
    ensures s.Names?
  {
  }

  /** Without an export section of its own, the module's output exports the countdown alone, and so on. */
  lemma AddedLead(sections: seq<Section>, l: Layout, out: seq<Out>, t: Out)
    requires SectionPass.Correct(sections, l, out)
    requires t in out && OutOrder(t) > 0 && forall s <- sections :: Order(s) != OutOrder(t)
    ensures match t
            case OutTypes(n) => n == 1 && l.types == 0
            case OutImports(items, interrupt) => items == [] && interrupt == l.types && l.imports == []
            case OutGlobals(inits) => inits == []
            case OutExports(es, index) => es == [] && CountdownAt(sections, index)
            case OutElements(segments, declared) => segments == [] && ThunksDeclared(l, declared)
            case _ => false
  {
    CountdownIs(sections, l);
    ThunksAre(l);
    assert ThunksOk(l);
    if s :| s in sections && t == Rewritten(l, s) {
      IndexSpace.SameOrder(l, s);
    }
    hide CountdownAt, ThunksDeclared, AllThunks;
  }
}
