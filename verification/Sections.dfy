/**
 * The single pass over a module's sections: it renumbers every function
 * reference while it discovers which imports escape, and adds its own entries
 * and sections in place. Sections are decoded; names and bytes that the pass
 * copies are opaque.
 */
module Sections {
  import BoundMemory
  import Leb
  import Rewriter

  // ------------------------------------------------------------------ input

  datatype ImportItem = FuncImport(ty: nat) | GlobalImport | OtherImport(n: int)

  /** An instruction of a constant expression, or an entry of a segment. */
  datatype Const = RefFunc(f: nat) | Opaque(n: int)

  datatype Export = FuncExport(f: nat, reserved: bool) | OtherExport(n: int, reserved: bool)

  datatype Section =
    | Types(count: nat)
    | Imports(items: seq<ImportItem>)
    | Functions(tys: seq<nat>)
    | Tables(n: int)
    | Memory(payload: seq<Leb.byte>)
    | Tags(n: int)
    | Globals(inits: seq<seq<Const>>)
    | Exports(exports: seq<Export>)
    | Start(f: nat)
    | Elements(segments: seq<seq<Const>>)
    | DataCount(n: int)
    | Code(bodies: seq<seq<Const>>) // instructions other than ref.func are opaque
    | Data(n: int)
    | Names(functions: seq<nat>)
    | Kept(n: int)
    | Dropped(n: int)

  datatype Out =
    | OutTypes(count: nat)
    | OutImports(items: seq<ImportItem>, interrupt: nat) // the added import's type
    | OutFunctions(tys: seq<nat>)
    | OutMemory(payload: seq<Leb.byte>)
    | OutGlobals(inits: seq<seq<Const>>) // and the countdown after them
    | OutExports(exports: seq<Export>, countdown: nat)
    | OutStart(f: nat)
    | OutElements(segments: seq<seq<Const>>, declared: seq<nat>)
    | OutCode(bodies: seq<seq<Const>>, thunks: seq<nat>)
    | OutNames(functions: seq<nat>)
    | Copy(section: Section)
    | Hole // the function section, until the thunks are known

  datatype Error =
    | InvalidType | SectionOrder | ReservedExport | Undeclared | InvalidCode | OneMemory
    | InvalidMemory(error: Leb.Error)

  /** sectionOrder; custom sections have none. */
  function Order(s: Section): nat {
    match s
    case Types(_) => 1
    case Imports(_) => 2
    case Functions(_) => 3
    case Tables(_) => 4
    case Memory(_) => 5
    case Tags(_) => 6
    case Globals(_) => 7
    case Exports(_) => 8
    case Start(_) => 9
    case Elements(_) => 10
    case DataCount(_) => 11
    case Code(_) => 12
    case Data(_) => 13
    case _ => 0
  }

  /** Each kind of section has an order of its own: that of section 5.5 of the WebAssembly specification. */
  lemma OrdersTell(s: Section, t: Section)
    ensures Order(s) == Order(t) > 0 ==>
              && (s.Types? <==> t.Types?) && (s.Imports? <==> t.Imports?) && (s.Functions? <==> t.Functions?)
              && (s.Tables? <==> t.Tables?) && (s.Memory? <==> t.Memory?) && (s.Tags? <==> t.Tags?)
              && (s.Globals? <==> t.Globals?) && (s.Exports? <==> t.Exports?) && (s.Start? <==> t.Start?)
              && (s.Elements? <==> t.Elements?) && (s.DataCount? <==> t.DataCount?)
              && (s.Code? <==> t.Code?) && (s.Data? <==> t.Data?)
    ensures (s.Types? && t.Imports?) || (s.Imports? && t.Functions?) || (s.Functions? && t.Tables?)
         || (s.Tables? && t.Memory?) || (s.Memory? && t.Tags?) || (s.Tags? && t.Globals?)
         || (s.Globals? && t.Exports?) || (s.Exports? && t.Start?) || (s.Start? && t.Elements?)
         || (s.Elements? && t.DataCount?) || (s.DataCount? && t.Code?) || (s.Code? && t.Data?)
         ==> 0 < Order(s) < Order(t)
    ensures Order(s) == 0 <==> s.Names? || s.Kept? || s.Dropped?
  {
  }

  function OutOrder(t: Out): nat {
    match t
    case OutTypes(_) => 1
    case OutImports(_, _) => 2
    case OutFunctions(_) => 3
    case Hole => 3
    case OutMemory(_) => 5
    case OutGlobals(_) => 7
    case OutExports(_, _) => 8
    case OutStart(_) => 9
    case OutElements(_, _) => 10
    case OutCode(_, _) => 12
    case OutNames(_) => 0
    case Copy(s) => Order(s)
  }

  // --------------------------------------------------------- the index spaces

  /** What the pass knows of the module. */
  datatype Layout = Layout(
    maximum: nat, // the host's bound of the memory, in pages
    types: nat,
    imports: seq<nat>, // the types of the imported functions
    importedGlobals: nat,
    functions: seq<nat>, // the types of the defined functions
    definedGlobals: nat,
    thunks: seq<nat>) // the imports that escape, in the order their thunks were assigned

  function Shift(l: Layout, f: nat): nat {
    if f >= |l.imports| then f + 1 else f
  }

  function Countdown(l: Layout): nat {
    l.importedGlobals + l.definedGlobals
  }

  function ThunkAt(l: Layout, k: nat): nat {
    |l.imports| + 1 + |l.functions| + k
  }

  /** Whether a reference to f has its final index. */
  predicate Known(l: Layout, f: nat) {
    f >= |l.imports| || l.functions == [] || f in l.thunks
  }

  function Reference(l: Layout, f: nat): nat {
    if f >= |l.imports| then f + 1
    else if l.functions == [] || f !in l.thunks then f
    else ThunkAt(l, Rewriter.IndexOf(l.thunks, f))
  }

  function Constant(l: Layout, c: Const): Const {
    if c.RefFunc? then RefFunc(Reference(l, c.f)) else c
  }

  function Constants(l: Layout, cs: seq<Const>): seq<Const> {
    seq(|cs|, j requires 0 <= j < |cs| => Constant(l, cs[j]))
  }

  function ConstantLists(l: Layout, css: seq<seq<Const>>): seq<seq<Const>> {
    seq(|css|, j requires 0 <= j < |css| => Constants(l, css[j]))
  }

  function Exported(l: Layout, e: Export): Export {
    if e.FuncExport? then FuncExport(Shift(l, e.f), e.reserved) else e
  }

  function Shifts(l: Layout, fs: seq<nat>): seq<nat> {
    seq(|fs|, j requires 0 <= j < |fs| => Shift(l, fs[j]))
  }

  function ExportsOf(l: Layout, es: seq<Export>): seq<Export> {
    seq(|es|, j requires 0 <= j < |es| => Exported(l, es[j]))
  }

  function AllThunks(l: Layout): seq<nat> {
    seq(|l.thunks|, k requires 0 <= k < |l.thunks| => ThunkAt(l, k))
  }

  function ImportTypes(l: Layout, fs: seq<nat>): seq<nat>
    requires forall k | 0 <= k < |fs| :: fs[k] < |l.imports|
  {
    seq(|fs|, k requires 0 <= k < |fs| => l.imports[fs[k]])
  }

  predicate ThunksOk(l: Layout) {
    && (forall k | 0 <= k < |l.thunks| :: l.thunks[k] < |l.imports|)
    && (forall i, k | 0 <= i < k < |l.thunks| :: l.thunks[i] != l.thunks[k])
    && (l.functions == [] ==> l.thunks == [])
  }

  /** The bounded memory; a payload without one is not accepted. */
  function Lowered(payload: seq<Leb.byte>, maximum: nat): Out {
    match BoundMemory.Bounded(payload, maximum)
    case Ok(bounded) => OutMemory(bounded)
    case Err(_) => Copy(Memory(payload))
  }

  /** What a section becomes once every index space is final. */
  function Rewritten(l: Layout, s: Section): Out
    requires ThunksOk(l)
  {
    match s
    case Types(count) => OutTypes(count + 1)
    case Imports(items) => OutImports(items, l.types)
    case Functions(tys) => OutFunctions(tys + ImportTypes(l, l.thunks))
    case Memory(payload) => Lowered(payload, l.maximum)
    case Globals(inits) => OutGlobals(ConstantLists(l, inits))
    case Exports(es) => OutExports(ExportsOf(l, es), Countdown(l))
    case Start(f) => OutStart(Shift(l, f))
    case Elements(segments) => OutElements(ConstantLists(l, segments), AllThunks(l))
    case Code(bodies) => OutCode(ConstantLists(l, bodies), l.thunks)
    case Names(fs) => OutNames(Shifts(l, fs))
    case _ => Copy(s)
  }

  /** The added entries' sections where the module has none. */
  function Synthesized(l: Layout, order: nat): Out {
    if order == 1 then OutTypes(1)
    else if order == 2 then OutImports([], l.types)
    else if order == 7 then OutGlobals([])
    else if order == 8 then OutExports([], Countdown(l))
    else OutElements([], AllThunks(l))
  }

  // ---------------------------------------------------------------- escaping

  function ConstantRefs(cs: seq<Const>): set<nat> {
    set j | 0 <= j < |cs| && cs[j].RefFunc? :: cs[j].f
  }

  function ListRefs(css: seq<seq<Const>>): set<nat> {
    set i, j | 0 <= i < |css| && 0 <= j < |css[i]| && css[i][j].RefFunc? :: css[i][j].f
  }

  function ExportRefs(es: seq<Export>): set<nat> {
    set j | 0 <= j < |es| && es[j].FuncExport? :: es[j].f
  }

  /** The functions a section lets code refer to. */
  function Escaping(s: Section): set<nat> {
    match s
    case Globals(inits) => ListRefs(inits)
    case Elements(segments) => ListRefs(segments)
    case Exports(es) => ExportRefs(es)
    case _ => {}
  }

  /** What a body or a declaration refers to. */
  function Referring(s: Section): set<nat> {
    if s.Code? then ListRefs(s.bodies)
    else if s.Exports? then {}
    else Escaping(s)
  }

  predicate AllKnown(l: Layout, fs: set<nat>) {
    forall f <- fs :: Known(l, f)
  }

  // ---------------------------------------------------- what stays as it was

  /** More of the module was read: only what comes after order o may differ. */
  predicate Later(l: Layout, l': Layout, o: nat, sealed: bool) {
    && l'.maximum == l.maximum
    && (o >= 1 ==> l'.types == l.types)
    && (o >= 2 ==> l'.imports == l.imports && l'.importedGlobals == l.importedGlobals)
    && (o >= 3 ==> l'.functions == l.functions)
    && (o >= 7 ==> l'.definedGlobals == l.definedGlobals)
    && l.thunks <= l'.thunks
    && (sealed ==> l'.thunks == l.thunks)
  }

  lemma IndexStable(t: seq<nat>, t': seq<nat>, f: nat)
    requires t <= t' && f in t
    ensures Rewriter.IndexOf(t', f) == Rewriter.IndexOf(t, f)
  {
    if t[0] != f {
      IndexStable(t[1..], t'[1..], f);
    }
  }

  lemma ReferenceStable(l: Layout, l': Layout, f: nat)
    requires l'.imports == l.imports && l'.functions == l.functions && l.thunks <= l'.thunks
    requires Known(l, f)
    requires ThunksOk(l) && ThunksOk(l')
    ensures Known(l', f) && Reference(l', f) == Reference(l, f)
  {
    if f < |l.imports| && f in l.thunks {
      IndexStable(l.thunks, l'.thunks, f);
      assert f in l'.thunks;
    }
  }

  lemma ConstantsStable(l: Layout, l': Layout, cs: seq<Const>)
    requires l'.imports == l.imports && l'.functions == l.functions && l.thunks <= l'.thunks
    requires AllKnown(l, ConstantRefs(cs))
    requires ThunksOk(l) && ThunksOk(l')
    ensures AllKnown(l', ConstantRefs(cs)) && Constants(l', cs) == Constants(l, cs)
  {
    hide ThunksOk, Known, Reference;
    forall f | f in ConstantRefs(cs) ensures Known(l', f) {
      ReferenceStable(l, l', f);
    }
    forall j | 0 <= j < |cs| ensures Constant(l', cs[j]) == Constant(l, cs[j]) {
      if cs[j].RefFunc? {
        assert cs[j].f in ConstantRefs(cs);
        ReferenceStable(l, l', cs[j].f);
      }
    }
  }

  lemma ListsStable(l: Layout, l': Layout, css: seq<seq<Const>>)
    requires l'.imports == l.imports && l'.functions == l.functions && l.thunks <= l'.thunks
    requires AllKnown(l, ListRefs(css))
    requires ThunksOk(l) && ThunksOk(l')
    ensures AllKnown(l', ListRefs(css)) && ConstantLists(l', css) == ConstantLists(l, css)
  {
    hide ThunksOk, Known, Constants;
    forall i | 0 <= i < |css| ensures Constants(l', css[i]) == Constants(l, css[i]) {
      forall f | f in ConstantRefs(css[i]) ensures Known(l, f) {
        var j :| 0 <= j < |css[i]| && css[i][j].RefFunc? && css[i][j].f == f;
        assert css[i][j].f in ListRefs(css);
      }
      ConstantsStable(l, l', css[i]);
    }
    forall f | f in ListRefs(css) ensures Known(l', f) {
      ReferenceStable(l, l', f);
    }
  }

  predicate WholeThunks(s: Section) {
    s.Functions? || s.Elements? || s.Code?
  }

  /** What a section became stays right as the pass learns more. */
  lemma RewrittenStable(l: Layout, l': Layout, o: nat, sealed: bool, s: Section)
    requires ThunksOk(l) && ThunksOk(l') && Later(l, l', o, sealed)
    requires Order(s) <= o && (s.Names? ==> o >= 2) && (WholeThunks(s) ==> sealed)
    requires AllKnown(l, Referring(s))
    ensures AllKnown(l', Referring(s)) && Rewritten(l', s) == Rewritten(l, s)
  {
    match s
    case Globals(inits) => ListsStable(l, l', inits);
    case Elements(segments) => ListsStable(l, l', segments);
    case Code(bodies) => ListsStable(l, l', bodies);
    case Exports(es) =>
    case Names(fs) =>
    case _ =>
  }
}
