/**
 * The pass itself, as one loop that updates its counters, its thunk map and
 * its output in place. It computes what Sections says of the final layout.
 */
module SectionPass {
  import opened Prelude
  import opened Sections
  import BoundMemory
  import Codec
  import Rewriter

  // ---------------------------------------------------------------- output

  ghost predicate Ordered(out: seq<Out>) {
    forall i, j | 0 <= i < j < |out| && OutOrder(out[i]) > 0 && OutOrder(out[j]) > 0 :: OutOrder(out[i]) < OutOrder(out[j])
  }

  ghost predicate Below(out: seq<Out>, bound: nat) {
    forall i | 0 <= i < |out| :: OutOrder(out[i]) < bound
  }

  ghost predicate Has(out: seq<Out>, q: nat) {
    exists t :: t in out && OutOrder(t) == q
  }

  lemma HasSnoc(out: seq<Out>, t: Out, q: nat)
    ensures Has(out + [t], q) <==> Has(out, q) || OutOrder(t) == q
  {
    if Has(out, q) {
      var u :| u in out && OutOrder(u) == q;
      assert u in out + [t];
    }
    if OutOrder(t) == q {
      assert t in out + [t];
    }
  }

  lemma HasUpdate(out: seq<Out>, k: nat, t: Out, q: nat)
    requires k < |out| && OutOrder(t) == OutOrder(out[k])
    ensures Has(out[k := t], q) <==> Has(out, q)
  {
    if Has(out, q) {
      var u :| u in out && OutOrder(u) == q;
      var i :| 0 <= i < |out| && out[i] == u;
      assert OutOrder(out[k := t][i]) == q;
    }
    if Has(out[k := t], q) {
      var u :| u in out[k := t] && OutOrder(u) == q;
      var i :| 0 <= i < |out| && out[k := t][i] == u;
      assert OutOrder(out[i]) == q;
    }
  }

  /** The same kinds of section as before, and perhaps one of order q. */
  ghost predicate HasMore(out: seq<Out>, out': seq<Out>, q: nat, added: bool) {
    forall r: nat :: Has(out', r) <==> Has(out, r) || (added && r == q)
  }

  lemma HasMoreAt(out: seq<Out>, out': seq<Out>, q: nat, added: bool)
    requires HasMore(out, out', q, added)
    ensures Has(out', 1) <==> Has(out, 1) || (added && q == 1)
    ensures Has(out', 2) <==> Has(out, 2) || (added && q == 2)
    ensures Has(out', 7) <==> Has(out, 7) || (added && q == 7)
    ensures Has(out', 8) <==> Has(out, 8) || (added && q == 8)
    ensures Has(out', 10) <==> Has(out, 10) || (added && q == 10)
  {
    hide Has;
  }

  predicate Added(l: Layout, t: Out) {
    && (OutOrder(t) == 1 || OutOrder(t) == 2 || OutOrder(t) == 7 || OutOrder(t) == 8 || OutOrder(t) == 10)
    && t == Synthesized(l, OutOrder(t))
  }

  /** A section that was read and can be written as it is now. */
  predicate Final(l: Layout, s: Section, o: nat, sealed: bool) {
    && Order(s) <= o
    && (s.Names? ==> o >= 2)
    && AllKnown(l, Referring(s))
    && (s.Elements? || s.Code? ==> sealed)
  }

  ghost predicate Sound(l: Layout, out: seq<Out>, done: seq<Section>, sealed: bool)
    requires ThunksOk(l)
  {
    forall i | 0 <= i < |out| ::
      (out[i].Hole? && !sealed) || Added(l, out[i]) || exists s :: s in done && out[i] == Rewritten(l, s) && (s.Functions? ==> sealed)
  }

  ghost predicate Complete(l: Layout, out: seq<Out>, done: seq<Section>, sealed: bool)
    requires ThunksOk(l)
  {
    forall s | s in done && Order(s) > 0 ::
      if s.Functions? && !sealed then Hole in out else Rewritten(l, s) in out
  }

  // ----------------------------------------------------------------- input

  function FunctionTypes(items: seq<ImportItem>): seq<nat> {
    if items == [] then []
    else
      var last := items[|items| - 1];
      FunctionTypes(items[..|items| - 1]) + (if last.FuncImport? then [last.ty] else [])
  }

  function GlobalCount(items: seq<ImportItem>): nat {
    if items == [] then 0
    else GlobalCount(items[..|items| - 1]) + (if items[|items| - 1].GlobalImport? then 1 else 0)
  }

  predicate ReadAs(l: Layout, s: Section) {
    match s
    case Types(count) => l.types == count
    case Imports(items) => l.imports == FunctionTypes(items) && l.importedGlobals == GlobalCount(items)
    case Functions(tys) => l.functions == tys
    case Globals(inits) => l.definedGlobals == |inits|
    case _ => true
  }

  /** The layout is what the sections so far say, and empty where they say nothing. */
  ghost predicate Told(l: Layout, done: seq<Section>) {
    && (forall s <- done :: ReadAs(l, s))
    && ((forall s <- done :: !s.Types?) ==> l.types == 0)
    && ((forall s <- done :: !s.Imports?) ==> l.imports == [] && l.importedGlobals == 0)
    && ((forall s <- done :: !s.Functions?) ==> l.functions == [])
    && ((forall s <- done :: !s.Globals?) ==> l.definedGlobals == 0)
  }

  lemma HeldSection(l: Layout, done: seq<Section>, fs: Section)
    requires Told(l, done) && fs.Functions? && (fs in done || fs.tys == l.functions)
    ensures fs == Functions(l.functions)
  {
  }

  ghost predicate Escapes(done: seq<Section>, f: nat) {
    exists s :: s in done && f in Escaping(s)
  }

  /** Exactly the imports that escape have a thunk, if there is code to call it. */
  ghost predicate Escaped(l: Layout, done: seq<Section>) {
    forall f: nat :: f in l.thunks <==> f < |l.imports| && l.functions != [] && Escapes(done, f)
  }

  lemma EscapesSnoc(done: seq<Section>, s: Section, f: nat)
    ensures Escapes(done + [s], f) <==> Escapes(done, f) || f in Escaping(s)
  {
    var now := done + [s];
    assert s in now && forall r <- done :: r in now;
  }

  /** After the sections `done`, up to order o: everything written is right for the layout so far. */
  ghost predicate State(l: Layout, out: seq<Out>, done: seq<Section>, o: nat, sealed: bool) {
    && ThunksOk(l)
    && Ordered(out) && Below(out, o + 1)
    && (forall s <- done :: Final(l, s, o, sealed))
    && Sound(l, out, done, sealed) && Complete(l, out, done, sealed)
  }

  lemma SoundAt(l: Layout, out: seq<Out>, done: seq<Section>, sealed: bool, i: nat)
    requires ThunksOk(l) && Sound(l, out, done, sealed) && i < |out|
    ensures (out[i].Hole? && !sealed) || Added(l, out[i])
         || exists s :: s in done && out[i] == Rewritten(l, s) && (s.Functions? ==> sealed)
  {
  }

  /** Passing an order changes nothing. */
  lemma StateRaise(l: Layout, out: seq<Out>, done: seq<Section>, o: nat, o': nat, sealed: bool)
    requires State(l, out, done, o, sealed) && o <= o'
    ensures State(l, out, done, o', sealed)
  {
    hide Sound, Complete, Ordered, ThunksOk;
  }

  lemma AddedStable(l: Layout, l': Layout, o: nat, sealed: bool, t: Out)
    requires Later(l, l', o, sealed) && Added(l, t) && OutOrder(t) <= o && (OutOrder(t) == 10 ==> sealed)
    requires OutOrder(t) == 10 ==> l'.imports == l.imports && l'.functions == l.functions
    ensures Added(l', t)
  {
  }

  /** Reading on does not invalidate what was written. */
  lemma StateLater(l: Layout, l': Layout, out: seq<Out>, done: seq<Section>, o: nat, sealed: bool)
    requires State(l, out, done, o, sealed) && Later(l, l', o, sealed) && ThunksOk(l')
    requires !sealed ==> forall i | 0 <= i < |out| :: OutOrder(out[i]) != 10
    ensures State(l', out, done, o, sealed)
  {
    assert ThunksOk(l);
    forall s | s in done && (s.Functions? ==> sealed)
      ensures Final(l', s, o, sealed) && Rewritten(l', s) == Rewritten(l, s)
    {
      RewrittenStable(l, l', o, sealed, s);
    }
    forall i | 0 <= i < |out| && Added(l, out[i]) ensures Added(l', out[i]) {
      AddedStable(l, l', o, sealed, out[i]);
    }
    hide Rewritten, Added, ThunksOk, Later;
    assert Sound(l', out, done, sealed) by {
      forall i | 0 <= i < |out|
        ensures (out[i].Hole? && !sealed) || Added(l', out[i])
             || exists s :: s in done && out[i] == Rewritten(l', s) && (s.Functions? ==> sealed)
      {
        SoundAt(l, out, done, sealed, i);
      }
    }
    assert Complete(l', out, done, sealed);
    forall s | s in done ensures Final(l', s, o, sealed) {
      if s.Functions? && !sealed {
        assert Referring(s) == {};
      }
    }
    hide Sound, Complete, Final, Ordered, Below;
  }

  lemma OrderedSnoc(out: seq<Out>, t: Out, o: nat)
    requires Ordered(out) && Below(out, o + 1) && OutOrder(t) > o
    ensures Ordered(out + [t]) && Below(out + [t], OutOrder(t) + 1)
  {
  }

  lemma CustomSnoc(out: seq<Out>, t: Out, o: nat)
    requires Ordered(out) && Below(out, o + 1) && OutOrder(t) == 0
    ensures Ordered(out + [t]) && Below(out + [t], o + 1)
  {
  }

  lemma CompleteSnoc(l: Layout, out: seq<Out>, done: seq<Section>, sealed: bool, t: Out)
    requires ThunksOk(l) && Complete(l, out, done, sealed)
    ensures Complete(l, out + [t], done, sealed)
  {
    forall s | s in done && Order(s) > 0
      ensures if s.Functions? && !sealed then Hole in out + [t] else Rewritten(l, s) in out + [t]
    {
      assert if s.Functions? && !sealed then Hole in out else Rewritten(l, s) in out;
    }
  }

  /** One of the added sections. */
  lemma StateAdd(l: Layout, out: seq<Out>, done: seq<Section>, o: nat, sealed: bool, t: Out)
    requires State(l, out, done, o, sealed)
    requires Added(l, t) && OutOrder(t) > o
    ensures State(l, out + [t], done, OutOrder(t), sealed)
  {
    var q, all := OutOrder(t), out + [t];
    OrderedSnoc(out, t, o);
    CompleteSnoc(l, out, done, sealed, t);
    hide Added, Ordered, Below, Complete, ThunksOk;
    forall s | s in done ensures Final(l, s, q, sealed) {
      assert Final(l, s, o, sealed);
    }
    forall i | 0 <= i < |all|
      ensures (all[i].Hole? && !sealed) || Added(l, all[i])
           || exists s :: s in done && all[i] == Rewritten(l, s) && (s.Functions? ==> sealed)
    {
      if i < |out| {
        SoundAt(l, out, done, sealed, i);
      }
    }
  }

  lemma EntryAdded(l: Layout, out: seq<Out>, done: seq<Section>, o: nat, sealed: bool, q: nat)
    requires State(l, out, done, o, sealed)
    requires (q == 1 || q == 2 || q == 7 || q == 8 || q == 10) && o < q
    ensures State(l, out + [Synthesized(l, q)], done, q, sealed)
    ensures HasMore(out, out + [Synthesized(l, q)], q, true)
    ensures !Synthesized(l, q).Hole?
  {
    var t := Synthesized(l, q);
    assert OutOrder(t) == q;
    StateAdd(l, out, done, o, sealed, t);
    hide State, Has;
    forall r: nat ensures Has(out + [t], r) <==> Has(out, r) || r == q {
      HasSnoc(out, t, r);
    }
  }

  /** The output with the function section in its place, and the thunks declared. */
  function SealedOut(l: Layout, out: seq<Out>, k: Option<nat>, declare: bool): seq<Out>
    requires ThunksOk(l) && (k.Some? ==> k.value < |out|)
  {
    (if k.Some? then out[k.value := Rewritten(l, Functions(l.functions))] else out)
    + (if declare then [Synthesized(l, 10)] else [])
  }

  lemma SealedState(l: Layout, out: seq<Out>, done: seq<Section>, o: nat, k: Option<nat>, declare: bool)
    requires State(l, out, done, o, false) && o < 10
    requires k.Some? ==> k.value < |out| && out[k.value].Hole? && Functions(l.functions) in done
    requires forall i | 0 <= i < |out| && out[i].Hole? :: k == Some(i)
    requires forall s | s in done && s.Functions? :: k.Some? && s == Functions(l.functions)
    ensures State(l, SealedOut(l, out, k, declare), done, 10, true)
    ensures HasMore(out, SealedOut(l, out, k, declare), 10, declare)
  {
    var fs := Functions(l.functions);
    StateSeal(l, out, done, o, k, fs);
    var filled := if k.Some? then out[k.value := Rewritten(l, fs)] else out;
    assert ThunksOk(l) && (k.Some? ==> OutOrder(Rewritten(l, fs)) == OutOrder(out[k.value]));
    hide State, Has, Rewritten;
    forall r: nat ensures Has(filled, r) <==> Has(out, r) {
      if k.Some? {
        HasUpdate(out, k.value, Rewritten(l, fs), r);
      }
    }
    if declare {
      EntryAdded(l, filled, done, o, true, 10);
    } else {
      StateRaise(l, filled, done, o, 10, true);
      assert filled + [] == filled;
    }
  }

  lemma SoundSection(l: Layout, out: seq<Out>, done: seq<Section>, sealed: bool, s: Section, t: Out)
    requires ThunksOk(l) && Sound(l, out, done, sealed)
    requires if s.Functions? && !sealed then t.Hole? else t == Rewritten(l, s)
    ensures Sound(l, out + [t], done + [s], sealed)
  {
    hide ThunksOk, Rewritten, Added;
    var all, now := out + [t], done + [s];
    assert s in now && forall r <- done :: r in now;
    forall i | 0 <= i < |all|
      ensures (all[i].Hole? && !sealed) || Added(l, all[i])
           || exists r :: r in now && all[i] == Rewritten(l, r) && (r.Functions? ==> sealed)
    {
      if i < |out| {
        SoundAt(l, out, done, sealed, i);
      } else {
        assert all[i] == t;
      }
    }
  }

  lemma CompleteSection(l: Layout, out: seq<Out>, done: seq<Section>, sealed: bool, s: Section, t: Out)
    requires ThunksOk(l) && Complete(l, out, done, sealed)
    requires if s.Functions? && !sealed then t.Hole? else t == Rewritten(l, s)
    ensures Complete(l, out + [t], done + [s], sealed)
  {
    CompleteSnoc(l, out, done, sealed, t);
    hide ThunksOk, Rewritten;
    var all, now := out + [t], done + [s];
    assert all[|out|] == t;
    forall r | r in now && Order(r) > 0
      ensures if r.Functions? && !sealed then Hole in all else Rewritten(l, r) in all
    {
      if r in done {
        assert if r.Functions? && !sealed then Hole in out + [t] else Rewritten(l, r) in out + [t];
      }
    }
  }

  /** One of the module's own sections, rewritten, or the place of the function section. */
  lemma StateSection(l: Layout, out: seq<Out>, done: seq<Section>, o: nat, sealed: bool, s: Section)
    requires State(l, out, done, o, sealed)
    requires if Order(s) > 0 then Order(s) > o && Final(l, s, Order(s), sealed) else Final(l, s, o, sealed)
    ensures var t := if s.Functions? && !sealed then Hole else Rewritten(l, s);
            && OutOrder(t) == Order(s)
            && State(l, out + [t], done + [s], if Order(s) > 0 then Order(s) else o, sealed)
  {
    var t := if s.Functions? && !sealed then Hole else Rewritten(l, s);
    var q := if Order(s) > 0 then Order(s) else o;
    assert OutOrder(t) == Order(s);
    if Order(s) > 0 {
      OrderedSnoc(out, t, o);
    } else {
      CustomSnoc(out, t, o);
    }
    SoundSection(l, out, done, sealed, s, t);
    CompleteSection(l, out, done, sealed, s, t);
    hide Ordered, Below, ThunksOk, Rewritten, Sound, Complete;
    forall r | r in done + [s] ensures Final(l, r, q, sealed) {
      if r != s {
        assert Final(l, r, o, sealed);
      }
    }
  }

  /** Sealing: the function section takes its place. */
  lemma StateSeal(l: Layout, out: seq<Out>, done: seq<Section>, o: nat, k: Option<nat>, fs: Section)
    requires State(l, out, done, o, false)
    requires k.Some? ==> k.value < |out| && out[k.value].Hole? && fs in done && fs.Functions?
    requires forall i | 0 <= i < |out| && out[i].Hole? :: k == Some(i)
    requires forall s | s in done && s.Functions? :: k.Some? && s == fs
    ensures State(l, if k.Some? then out[k.value := Rewritten(l, fs)] else out, done, o, true)
  {
    var all := if k.Some? then out[k.value := Rewritten(l, fs)] else out;
    assert forall i | 0 <= i < |out| :: OutOrder(all[i]) == OutOrder(out[i]);
    assert Ordered(all) && Below(all, o + 1);
    hide Ordered, Below, ThunksOk, Rewritten;
    forall s | s in done ensures Final(l, s, o, true) {
      assert Final(l, s, o, false);
    }
    forall i | 0 <= i < |all|
      ensures Added(l, all[i]) || exists s :: s in done && all[i] == Rewritten(l, s)
    {
      SoundAt(l, out, done, false, i);
    }
    forall s | s in done && Order(s) > 0 ensures Rewritten(l, s) in all {
      if s.Functions? {
        assert all[k.value] == Rewritten(l, s);
      } else {
        var i :| 0 <= i < |out| && out[i] == Rewritten(l, s);
        assert !out[i].Hole? by {
          NotHole(l, s);
        }
        assert all[i] == out[i];
      }
    }
  }

  lemma NotHole(l: Layout, s: Section)
    requires ThunksOk(l)
    ensures !Rewritten(l, s).Hole?
  {
  }

  /** Only what section s says may have changed, and the thunks. */
  predicate Reads(l: Layout, l': Layout, s: Section) {
    && ReadAs(l', s) && l'.maximum == l.maximum
    && (!s.Types? ==> l'.types == l.types)
    && (!s.Imports? ==> l'.imports == l.imports && l'.importedGlobals == l.importedGlobals)
    && (!s.Functions? ==> l'.functions == l.functions)
    && (!s.Globals? ==> l'.definedGlobals == l.definedGlobals)
    && l.thunks <= l'.thunks
  }

  lemma ReadsLater(l: Layout, l': Layout, s: Section, sealed: bool)
    requires Reads(l, l', s) && Order(s) > 0 && (sealed ==> l'.thunks == l.thunks)
    ensures Later(l, l', Order(s) - 1, sealed)
  {
  }

  lemma ToldNext(l: Layout, l': Layout, done: seq<Section>, s: Section)
    requires Told(l, done) && Reads(l, l', s) && Order(s) > 0
    requires forall r <- done :: Order(r) < Order(s)
    ensures Told(l', done + [s])
  {
    var now := done + [s];
    assert s in now && forall r <- done :: r in now;
    forall r | r in now ensures ReadAs(l', r) {
      if r in done {
        assert ReadAs(l, r);
      }
    }
  }

  lemma BelowState(l: Layout, out: seq<Out>, done: seq<Section>, q: nat, sealed: bool)
    requires q > 0 && State(l, out, done, q - 1, sealed)
    ensures forall i | 0 <= i < |out| :: OutOrder(out[i]) < q
    ensures forall r | r in done :: Order(r) < q
  {
    forall r | r in done ensures Order(r) < q {
      assert Final(l, r, q - 1, sealed);
    }
    hide Sound, Complete, Ordered;
  }

  /** The next section of the module, read and written. */
  lemma StepOk(l: Layout, l': Layout, out: seq<Out>, done: seq<Section>, sealed: bool, s: Section)
    requires Order(s) > 0
    requires State(l, out, done, Order(s) - 1, sealed) && Told(l, done)
    requires Reads(l, l', s) && ThunksOk(l') && (sealed ==> l'.thunks == l.thunks)
    requires Order(s) > 10 ==> sealed
    requires Final(l', s, Order(s), sealed)
    ensures
      var t := if s.Functions? && !sealed then Hole else Rewritten(l', s);
      && State(l', out + [t], done + [s], Order(s), sealed)
      && HasMore(out, out + [t], Order(s), true)
      && Told(l', done + [s])
  {
    var q := Order(s);
    hide State, Told, Has, Reads, Final, Later, Rewritten, ThunksOk;
    ReadsLater(l, l', s, sealed);
    BelowState(l, out, done, q, sealed);
    StateLater(l, l', out, done, q - 1, sealed);
    StateSection(l', out, done, q - 1, sealed, s);
    ToldNext(l, l', done, s);
    var t := if s.Functions? && !sealed then Hole else Rewritten(l', s);
    forall r: nat ensures Has(out + [t], r) <==> Has(out, r) || r == q {
      HasSnoc(out, t, r);
    }
  }

  lemma SomeMember(t: seq<nat>)
    ensures t == [] || exists f :: f in t
  {
    if t != [] {
      assert t[0] in t;
    }
  }

  /** Escapes come from globals on; before, no thunk is assigned. */
  lemma NoThunksYet(l: Layout, out: seq<Out>, done: seq<Section>, o: nat, sealed: bool)
    requires State(l, out, done, o, sealed) && Escaped(l, done) && o < 7
    ensures l.thunks == []
  {
    forall s | s in done ensures Escaping(s) == {} {
      assert Final(l, s, o, sealed);
    }
    SomeMember(l.thunks);
  }

  lemma EscapedSame(l: Layout, l': Layout, done: seq<Section>, s: Section)
    requires Escaped(l, done) && Escaping(s) == {}
    requires l'.thunks == l.thunks
    requires (l'.imports == l.imports && l'.functions == l.functions) || (l.thunks == [] && forall r <- done :: Escaping(r) == {})
    ensures Escaped(l', done + [s])
  {
    forall f: nat ensures Escapes(done + [s], f) <==> Escapes(done, f) {
      EscapesSnoc(done, s, f);
    }
    assert (forall r <- done :: Escaping(r) == {}) ==> forall f: nat :: !Escapes(done, f);
    hide Escapes;
  }

  lemma EscapedMore(l: Layout, l1: Layout, l': Layout, done: seq<Section>, s: Section, sealed: bool)
    requires Escaped(l, done)
    requires l1.thunks == l.thunks && l1.imports == l.imports && l1.functions == l.functions
    requires Gained(l1, l', Escaping(s), sealed)
    ensures Escaped(l', done + [s])
  {
    forall f: nat ensures Escapes(done + [s], f) <==> Escapes(done, f) || f in Escaping(s) {
      EscapesSnoc(done, s, f);
    }
    hide Escapes;
  }

  lemma GainedThunks(l: Layout, l': Layout, thunkOf: map<nat, nat>, refs: set<nat>, sealed: bool)
    requires Gained(l, l', refs, sealed) && MapOk(l', thunkOf)
    ensures ThunksOk(l') && l.thunks <= l'.thunks && (sealed ==> l'.thunks == l.thunks) && l' == l.(thunks := l'.thunks)
  {
    hide ThunksOk;
  }

  lemma GlobalsRead(l: Layout, l1: Layout, l': Layout, thunkOf: map<nat, nat>, s: Section, done: seq<Section>, sealed: bool)
    requires s.Globals? && Escaped(l, done)
    requires Gained(l, l1, ListRefs(s.inits), sealed) && MapOk(l1, thunkOf) && AllKnown(l1, ListRefs(s.inits))
    requires l' == l1.(definedGlobals := |s.inits|)
    ensures MapOk(l', thunkOf) && ThunksOk(l') && Reads(l, l', s) && Final(l', s, 7, sealed)
    ensures (sealed ==> l'.thunks == l.thunks)
    ensures Rewritten(l', s) == OutGlobals(ConstantLists(l1, s.inits))
    ensures Escaped(l', done + [s])
  {
    GainedThunks(l, l1, thunkOf, ListRefs(s.inits), sealed);
    assert ThunksOk(l');
    assert MapOk(l', thunkOf);
    hide ThunksOk, MapOk;
    ListsStable(l1, l', s.inits);
    EscapedMore(l, l, l1, done, s, sealed);
    hide AllKnown, ListRefs, Gained, Escapes;
  }

  lemma ExportsRead(l: Layout, l': Layout, thunkOf: map<nat, nat>, s: Section, done: seq<Section>, sealed: bool)
    requires s.Exports? && Escaped(l, done)
    requires Gained(l, l', ExportRefs(s.exports), sealed) && MapOk(l', thunkOf)
    ensures ThunksOk(l') && Reads(l, l', s) && Final(l', s, 8, sealed)
    ensures (sealed ==> l'.thunks == l.thunks)
    ensures Rewritten(l', s) == OutExports(ExportsOf(l', s.exports), l'.importedGlobals + l'.definedGlobals)
    ensures Escaped(l', done + [s])
  {
    GainedThunks(l, l', thunkOf, ExportRefs(s.exports), sealed);
    EscapedMore(l, l, l', done, s, sealed);
    hide ThunksOk, MapOk, Gained, Escapes;
  }

  lemma ElementsRead(l: Layout, l': Layout, thunkOf: map<nat, nat>, s: Section, done: seq<Section>, segments: seq<seq<Const>>)
    requires s.Elements? && Escaped(l, done)
    requires Gained(l, l', ListRefs(s.segments), false) && MapOk(l', thunkOf) && AllKnown(l', ListRefs(s.segments))
    requires segments == ConstantLists(l', s.segments)
    ensures ThunksOk(l') && Reads(l, l', s) && Final(l', s, 10, true)
    ensures Rewritten(l', s) == OutElements(segments, AllThunks(l'))
    ensures Escaped(l', done + [s])
  {
    GainedThunks(l, l', thunkOf, ListRefs(s.segments), false);
    EscapedMore(l, l, l', done, s, false);
    hide ThunksOk, MapOk, Gained, Escapes, AllKnown;
  }

  lemma CodeRead(l: Layout, l': Layout, thunkOf: map<nat, nat>, s: Section, done: seq<Section>)
    requires s.Code? && Escaped(l, done)
    requires Gained(l, l', ListRefs(s.bodies), true) && MapOk(l', thunkOf) && AllKnown(l', ListRefs(s.bodies))
    ensures l' == l && ThunksOk(l') && Reads(l, l', s) && Final(l', s, 12, true)
    ensures Rewritten(l', s) == OutCode(ConstantLists(l', s.bodies), l'.thunks)
    ensures Escaped(l', done + [s])
  {
    GainedThunks(l, l', thunkOf, ListRefs(s.bodies), true);
    EscapedSame(l, l', done, s);
    hide ThunksOk, MapOk, Gained, Escapes, AllKnown;
  }

  lemma PlainRead(l: Layout, s: Section, done: seq<Section>, sealed: bool)
    requires s.Tables? || s.Memory? || s.Tags? || s.Start? || s.DataCount? || s.Data?
    requires ThunksOk(l) && Escaped(l, done)
    ensures Reads(l, l, s) && Final(l, s, Order(s), sealed) && Escaped(l, done + [s])
    ensures Rewritten(l, s)
         == if s.Start? then OutStart(Shift(l, s.f)) else if s.Memory? then Lowered(s.payload, l.maximum) else Copy(s)
  {
    EscapedSame(l, l, done, s);
    hide ThunksOk, Escapes;
  }

  lemma CustomRead(l: Layout, out: seq<Out>, s: Section, done: seq<Section>, o: nat, sealed: bool)
    requires s.Kept? || (s.Names? && o >= 2)
    requires State(l, out, done, o, sealed) && Told(l, done) && Escaped(l, done)
    ensures ThunksOk(l)
    ensures
      var t := if s.Names? then OutNames(Shifts(l, s.functions)) else Copy(s);
      && State(l, out + [t], done + [s], o, sealed) && Told(l, done + [s]) && Escaped(l, done + [s])
      && HasMore(out, out + [t], 0, true)
  {
    EscapedSame(l, l, done, s);
    assert Told(l, done + [s]) by {
      var now := done + [s];
      assert forall r <- done :: r in now;
      assert forall r | r in now :: r in done || r == s;
    }
    assert Final(l, s, o, sealed) && ThunksOk(l);
    var t := if s.Names? then OutNames(Shifts(l, s.functions)) else Copy(s);
    assert Rewritten(l, s) == t;
    StateSection(l, out, done, o, sealed, s);
    hide State, Told, Escaped, Has;
    forall r: nat ensures Has(out + [t], r) <==> Has(out, r) || r == 0 {
      HasSnoc(out, t, r);
    }
  }

  /** The element section: written first, then the function section takes its place. */
  lemma StepElements(l: Layout, l': Layout, out: seq<Out>, done: seq<Section>, k: Option<nat>, s: Section)
    requires s.Elements?
    requires State(l, out, done, 9, false) && Told(l, done)
    requires Reads(l, l', s) && ThunksOk(l') && Final(l', s, 10, true)
    requires k.Some? ==> k.value < |out| && out[k.value].Hole? && Functions(l.functions) in done
    requires forall i | 0 <= i < |out| && out[i].Hole? :: k == Some(i)
    requires forall r | r in done && r.Functions? :: k.Some? && r == Functions(l.functions)
    ensures
      var all := SealedOut(l', out + [Rewritten(l', s)], k, false);
      && State(l', all, done + [s], 10, true)
      && HasMore(out, all, 10, true)
      && Told(l', done + [s])
  {
    var fs, t := Functions(l.functions), Rewritten(l', s);
    ReadsLater(l, l', s, false);
    assert l'.functions == l.functions;
    hide State, Told, Has, Reads, Final, Later, Rewritten, ThunksOk;
    BelowState(l, out, done, 10, false);
    StateLater(l, l', out, done, 9, false);
    ToldNext(l, l', done, s);
    FilledState(l', out, done, k);
    var filled := SealedOut(l', out, k, false);
    StateSection(l', filled, done, 9, true, s);
    var all := SealedOut(l', out + [t], k, false);
    SealedSnoc(l', out, k, t);
    forall r: nat ensures Has(all, r) <==> Has(out, r) || r == 10 {
      HasSnoc(filled, t, r);
    }
  }

  lemma SealedSnoc(l: Layout, out: seq<Out>, k: Option<nat>, t: Out)
    requires ThunksOk(l) && (k.Some? ==> k.value < |out|)
    ensures SealedOut(l, out + [t], k, false) == SealedOut(l, out, k, false) + [t]
  {
    hide ThunksOk, Rewritten;
    if k.Some? {
      var f := Rewritten(l, Functions(l.functions));
      assert (out + [t])[k.value := f] == out[k.value := f] + [t];
    }
  }

  lemma FilledState(l: Layout, out: seq<Out>, done: seq<Section>, k: Option<nat>)
    requires State(l, out, done, 9, false)
    requires k.Some? ==> k.value < |out| && out[k.value].Hole? && Functions(l.functions) in done
    requires forall i | 0 <= i < |out| && out[i].Hole? :: k == Some(i)
    requires forall s | s in done && s.Functions? :: k.Some? && s == Functions(l.functions)
    ensures ThunksOk(l)
    ensures State(l, SealedOut(l, out, k, false), done, 9, true)
    ensures forall r: nat :: Has(SealedOut(l, out, k, false), r) <==> Has(out, r)
  {
    var fs := Functions(l.functions);
    StateSeal(l, out, done, 9, k, fs);
    assert ThunksOk(l) && (k.Some? ==> OutOrder(Rewritten(l, fs)) == OutOrder(out[k.value]));
    hide State, Has, Rewritten, ThunksOk;
    var filled := if k.Some? then out[k.value := Rewritten(l, fs)] else out;
    assert filled + [] == filled;
    forall r: nat ensures Has(filled, r) <==> Has(out, r) {
      if k.Some? {
        HasUpdate(out, k.value, Rewritten(l, fs), r);
      }
    }
  }

  lemma SpaceEmpty(l: Layout, thunkOf: map<nat, nat>, out: seq<Out>, done: seq<Section>, s: Section, sealed: bool)
    requires s.Types? || s.Imports? || s.Functions?
    requires State(l, out, done, Order(s) - 1, sealed) && Escaped(l, done) && MapOk(l, thunkOf)
    ensures l.thunks == [] && thunkOf == map[]
    ensures forall r <- done :: Escaping(r) == {}
  {
    hide Escaped, State, ThunksOk;
    NoThunksYet(l, out, done, Order(s) - 1, sealed);
    QuietBefore(l, out, done, Order(s) - 1, sealed);
    assert thunkOf.Keys == {};
  }

  lemma SpaceMapped(l: Layout, thunkOf: map<nat, nat>)
    requires l.thunks == [] && thunkOf == map[]
    ensures MapOk(l, thunkOf)
  {
  }

  lemma StepSpace(l: Layout, l': Layout, out: seq<Out>, done: seq<Section>, sealed: bool, s: Section)
    requires s.Types? || s.Imports? || s.Functions?
    requires State(l, out, done, Order(s) - 1, sealed) && Told(l, done) && Escaped(l, done) && !sealed
    requires Reads(l, l', s) && l.thunks == [] == l'.thunks
    requires forall r <- done :: Escaping(r) == {}
    ensures ThunksOk(l')
    ensures
      var t := if s.Functions? then Hole else Rewritten(l', s);
      && State(l', out + [t], done + [s], Order(s), sealed)
      && HasMore(out, out + [t], Order(s), true)
      && Told(l', done + [s]) && Escaped(l', done + [s])
      && forall r | r in done :: !r.Functions? || !s.Functions?
  {
    BelowState(l, out, done, Order(s), sealed);
    EscapedSame(l, l', done, s);
    hide State, Told, Escaped, HasMore, Rewritten;
    StepOk(l, l', out, done, sealed, s);
  }

  lemma QuietBefore(l: Layout, out: seq<Out>, done: seq<Section>, o: nat, sealed: bool)
    requires State(l, out, done, o, sealed) && o < 7
    ensures forall r <- done :: Escaping(r) == {}
  {
    forall s | s in done ensures Escaping(s) == {} {
      assert Final(l, s, o, sealed);
    }
  }

  /** The thunk map agrees with the order in which thunks were assigned. */
  ghost predicate MapOk(l: Layout, thunkOf: map<nat, nat>) {
    && ThunksOk(l)
    && (forall f :: f in thunkOf <==> f in l.thunks)
    && (forall k | 0 <= k < |l.thunks| :: thunkOf[l.thunks[k]] == ThunkAt(l, k))
  }

  /** Thunks were assigned for the imports among these references, and none after sealing. */
  ghost predicate Gained(l: Layout, l': Layout, refs: set<nat>, sealed: bool) {
    && l' == l.(thunks := l'.thunks)
    && l.thunks <= l'.thunks
    && (sealed ==> l'.thunks == l.thunks)
    && forall f :: f in l'.thunks <==> f in l.thunks || (f in refs && f < |l.imports| && l.functions != [])
  }

  lemma GainedMore(l: Layout, l1: Layout, l2: Layout, a: set<nat>, b: set<nat>, sealed: bool)
    requires Gained(l, l1, a, sealed) && Gained(l1, l2, b, sealed)
    ensures Gained(l, l2, a + b, sealed)
  {
  }

  lemma MapSnoc(l: Layout, thunkOf: map<nat, nat>, f: nat)
    requires MapOk(l, thunkOf) && f !in l.thunks && f < |l.imports| && l.functions != []
    ensures
      var l' := l.(thunks := l.thunks + [f]);
      && MapOk(l', thunkOf[f := ThunkAt(l, |l.thunks|)])
      && Gained(l, l', {f}, false)
      && Sections.Known(l', f) && Reference(l', f) == ThunkAt(l, |l.thunks|)
  {
    var l' := l.(thunks := l.thunks + [f]);
    assert l'.thunks[|l.thunks|] == f;
    NewThunk(l, f);
    hide Reference, Rewriter.IndexOf;
  }

  /** A new thunk is referred to by its index after the others. */
  lemma NewThunk(l: Layout, f: nat)
    requires f !in l.thunks && ThunksOk(l) && f < |l.imports| && l.functions != []
    ensures var l' := l.(thunks := l.thunks + [f]); Reference(l', f) == ThunkAt(l, |l.thunks|)
  {
    var l' := l.(thunks := l.thunks + [f]);
    assert l'.thunks[|l.thunks|] == f;
    IndexIsUnique(l', f);
  }

  lemma MapReads(l: Layout, thunkOf: map<nat, nat>, f: nat)
    requires MapOk(l, thunkOf) && f in thunkOf && f < |l.imports| && l.functions != []
    ensures Sections.Known(l, f) && Reference(l, f) == thunkOf[f]
  {
    var k := Rewriter.IndexOf(l.thunks, f);
    assert l.thunks[k] == f;
  }

  /** Some function import has no type: `types` is the first index that none declares. */
  predicate BadImport(items: seq<ImportItem>, types: nat) {
    exists i :: 0 <= i < |items| && items[i].FuncImport? && items[i].ty >= types
  }

  predicate BadType(tys: seq<nat>, types: nat) {
    exists i :: 0 <= i < |tys| && tys[i] >= types
  }

  predicate Reserved(es: seq<Export>) {
    exists i :: 0 <= i < |es| && es[i].reserved
  }

  /** Why a section in its place is not accepted. */
  predicate Refused(l: Layout, s: Section) {
    match s
    case Imports(items) => BadImport(items, l.types)
    case Functions(tys) => BadType(tys, l.types)
    case Memory(payload) => BoundMemory.Bounded(payload, l.maximum).Err?
    case Exports(es) => Reserved(es)
    case Code(bodies) => |bodies| != |l.functions| || !AllKnown(l, ListRefs(bodies))
    case _ => false
  }

  lemma NotRefused(l: Layout, s: Section)
    requires !s.Imports? && !s.Functions? && !s.Memory? && !s.Exports? && !s.Code?
    ensures !Refused(l, s)
  {
  }

  lemma ReadsFunctions(l: Layout, l': Layout, s: Section)
    requires Reads(l, l', s) && s.Elements?
    ensures l'.functions == l.functions
  {
  }

  lemma CodeLonger(done: seq<Section>, s: Section)
    ensures (exists r :: r in done && r.Code?) ==> exists r :: r in done + [s] && r.Code?
  {
    if r :| r in done && r.Code? {
      assert r in done + [s];
    }
  }

  lemma UnknownConstant(l: Layout, l1: Layout, cs: seq<Const>, i: nat, sealed: bool)
    requires i < |cs| && cs[i].RefFunc? && sealed && Gained(l, l1, ConstantRefs(cs[..i]), sealed)
    requires !Sections.Known(l1, cs[i].f)
    ensures !AllKnown(l, ConstantRefs(cs))
  {
    hide Sections.Known;
    assert l1 == l;
    assert cs[i].f in ConstantRefs(cs);
  }

  lemma UnknownList(l: Layout, l1: Layout, css: seq<seq<Const>>, i: nat, sealed: bool)
    requires i < |css| && sealed && Gained(l, l1, ListRefs(css[..i]), sealed)
    requires !AllKnown(l1, ConstantRefs(css[i]))
    ensures !AllKnown(l, ListRefs(css))
  {
    hide Sections.Known;
    assert l1 == l;
    var f :| f in ConstantRefs(css[i]) && !Sections.Known(l, f);
    var j :| 0 <= j < |css[i]| && css[i][j].RefFunc? && css[i][j].f == f;
    assert css[i][j].f in ListRefs(css);
  }

  class Pass {
    const maximum: nat
    var types: nat
    var imports: seq<nat>
    var importedGlobals: nat
    var functions: seq<nat>
    var definedGlobals: nat
    var thunkOf: map<nat, nat>
    var thunks: seq<nat>
    var lastOrder: nat
    var pendingType: bool
    var pendingImport: bool
    var pendingGlobal: bool
    var pendingExport: bool
    var elementsSeen: bool
    var memorySeen: bool
    var codeSeen: bool
    var sealed: bool
    var slot: Option<nat>
    var output: seq<Out>
    ghost var held: Option<Section> // the section whose place the slot is

    function View(): Layout
      reads this
    {
      Layout(maximum, types, imports, importedGlobals, functions, definedGlobals, thunks)
    }

    ghost predicate Mapped()
      reads this
    {
      MapOk(View(), thunkOf)
    }

    ghost predicate Slotted()
      reads this
    {
      && (forall i | 0 <= i < |output| && output[i].Hole? :: !sealed && slot == Some(i))
      && (slot.Some? ==> slot.value < |output| && (!sealed ==> output[slot.value].Hole?))
    }

    constructor (maximum: nat)
      ensures View() == Layout(maximum, 0, [], 0, [], 0, []) && Mapped() && Slotted() && output == [] && lastOrder == 0
      ensures pendingType && pendingImport && pendingGlobal && pendingExport
      ensures !elementsSeen && !memorySeen && !codeSeen && !sealed && slot.None? && held.None?
    {
      this.maximum := maximum;
      types, imports, importedGlobals, functions, definedGlobals := 0, [], 0, [], 0;
      thunkOf, thunks, lastOrder, output, slot := map[], [], 0, [], None;
      pendingType, pendingImport, pendingGlobal, pendingExport := true, true, true, true;
      elementsSeen, memorySeen, codeSeen, sealed := false, false, false, false;
      held := None;
    }

    ghost predicate Holding(done: seq<Section>)
      reads this
    {
      && (held.Some? <==> slot.Some?)
      && (held.Some? ==> held.value in done && held.value.Functions?)
      && (forall s | s in done && s.Functions? :: held == Some(s))
    }

    ghost predicate Flags(o: nat)
      reads this
    {
      && (sealed <==> o >= 10)
      && (elementsSeen ==> sealed)
      && (o >= 1 ==> !pendingType) && (!pendingType ==> Has(output, 1))
      && (o >= 2 ==> !pendingImport) && (!pendingImport ==> Has(output, 2))
      && (o >= 7 ==> !pendingGlobal) && (!pendingGlobal ==> Has(output, 7))
      && (o >= 8 ==> !pendingExport) && (!pendingExport ==> Has(output, 8))
      && (sealed && thunks != [] ==> Has(output, 10))
    }

    /** Everything the pass maintains once it is past order o. */
    ghost predicate Good(done: seq<Section>, o: nat)
      reads this
    {
      && Mapped() && Slotted() && Holding(done) && Flags(o)
      && State(View(), output, done, o, sealed)
      && Told(View(), done) && Escaped(View(), done)
      && (codeSeen ==> exists s :: s in done && s.Code?)
    }

    predicate Pending(q: nat)
      reads this
    {
      if q == 1 then pendingType else if q == 2 then pendingImport else if q == 7 then pendingGlobal else pendingExport
    }

    method Clear(q: nat)
      requires q == 1 || q == 2 || q == 7 || q == 8
      modifies `pendingType, `pendingImport, `pendingGlobal, `pendingExport
      ensures !Pending(q)
      ensures q != 1 ==> pendingType == old(pendingType)
      ensures q != 2 ==> pendingImport == old(pendingImport)
      ensures q != 7 ==> pendingGlobal == old(pendingGlobal)
      ensures q != 8 ==> pendingExport == old(pendingExport)
    {
      if q == 1 {
        pendingType := false;
      } else if q == 2 {
        pendingImport := false;
      } else if q == 7 {
        pendingGlobal := false;
      } else {
        pendingExport := false;
      }
    }

    /** The added entry of order q, in a section of its own if the module has none. */
    method AddEntry(q: nat, ghost done: seq<Section>, ghost o: nat)
      requires Good(done, o)
      requires q == 1 || q == 2 || q == 7 || q == 8
      requires (q > 1 ==> !pendingType) && (q > 2 ==> !pendingImport) && (q > 7 ==> !pendingGlobal)
      modifies `output, `pendingType, `pendingImport, `pendingGlobal, `pendingExport
      ensures Good(done, Max(o, q)) && !Pending(q)
      ensures q != 1 ==> pendingType == old(pendingType)
      ensures q != 2 ==> pendingImport == old(pendingImport)
      ensures q != 7 ==> pendingGlobal == old(pendingGlobal)
      ensures sealed == old(sealed)
    {
      if Pending(q) {
        hide State, MapOk, Told, Escaped, Synthesized, Has, HasMore;
        var t := Synthesized(View(), q);
        EntryAdded(View(), output, done, o, sealed, q);
        HasMoreAt(output, output + [t], q, true);
        Clear(q);
        Emit(t);
      } else {
        hide State, MapOk, Told, Escaped, Has;
        StateRaise(View(), output, done, o, Max(o, q), sealed);
      }
    }

    /** Fix the thunk set. */
    method Seal()
      requires Mapped() && Slotted()
      modifies `sealed, `elementsSeen, `output
      ensures sealed && Slotted()
      ensures old(sealed) ==> output == old(output) && elementsSeen == old(elementsSeen)
      ensures !old(sealed) ==> output == SealedOut(View(), old(output), slot, !old(elementsSeen) && thunks != [])
      ensures !old(sealed) ==> elementsSeen == (old(elementsSeen) || thunks != [])
    {
      if sealed {
        return;
      }
      sealed := true;
      ghost var before := output;
      if slot.Some? {
        assert output[slot.value].Hole?;
      }
      if !elementsSeen && |thunks| > 0 {
        elementsSeen := true;
        output := output + [OutElements([], AllThunks(View()))];
      }
      if slot.Some? {
        output := output[slot.value := OutFunctions(functions + ImportTypes(View(), thunks))];
        assert forall i | 0 <= i < |output| && output[i].Hole? :: false;
      }
    }

    /** Seal before a section of order `order`, which follows the element section. */
    method SealBefore(ghost done: seq<Section>, ghost o: nat)
      requires Good(done, o) && o >= 8
      modifies `sealed, `elementsSeen, `output
      ensures Good(done, Max(o, 10))
    {
      hide State, MapOk, Told, Escaped, Has, HasMore, Synthesized, Rewritten;
      if sealed {
        StateRaise(View(), output, done, o, Max(o, 10), sealed);
      } else {
        MapThunks(View(), thunkOf);
        HeldSection(View(), done, if slot.Some? then held.value else Functions(functions));
        SealedState(View(), output, done, o, slot, !elementsSeen && thunks != []);
        HasMoreAt(output, SealedOut(View(), output, slot, !elementsSeen && thunks != []), 10, !elementsSeen && thunks != []);
      }
      Seal();
    }

    /** Whatever is due before a section of order `order` and still pending. */
    method SynthesizeBefore(order: nat, ghost done: seq<Section>, ghost o: nat)
      requires Good(done, o) && o < order
      modifies `output, `pendingType, `pendingImport, `pendingGlobal, `pendingExport, `sealed, `elementsSeen
      ensures Good(done, order - 1)
    {
      hide Good, State;
      ghost var at := o;
      if order > 1 {
        AddEntry(1, done, at);
        at := Max(at, 1);
      }
      if order > 2 {
        AddEntry(2, done, at);
        at := Max(at, 2);
      }
      if order > 7 {
        AddEntry(7, done, at);
        at := Max(at, 7);
      }
      if order > 8 {
        AddEntry(8, done, at);
        at := Max(at, 8);
      }
      if order > 10 {
        SealBefore(done, at);
        at := Max(at, 10);
      }
      GoodRaise(done, at, order - 1);
    }

    lemma GoodRaise(done: seq<Section>, o: nat, o': nat)
      requires Good(done, o) && o <= o'
      requires (o' >= 10 ==> o >= 10) && (o' >= 1 ==> !pendingType) && (o' >= 2 ==> !pendingImport)
      requires (o' >= 7 ==> !pendingGlobal) && (o' >= 8 ==> !pendingExport)
      ensures Good(done, o')
    {
      StateRaise(View(), output, done, o, o', sealed);
      hide State, MapOk, Told, Escaped, Has;
    }

    method ReadTypes(s: Section, ghost done: seq<Section>)
      requires s.Types? && Good(done, Order(s) - 1)
      modifies `types, `pendingType, `output
      ensures Good(done + [s], Order(s))
    {
      hide State, Told, Escaped, Has, HasMore, MapOk, ThunksOk, Escaping;
      ghost var l := View();
      SpaceEmpty(l, thunkOf, output, done, s, sealed);
      types := s.count;
      pendingType := false;
      Emit(OutTypes(s.count + 1));
      StepSpace(l, View(), old(output), done, sealed, s);
      HasMoreAt(old(output), output, 1, true);
      SpaceMapped(View(), thunkOf);
    }

    method ReadImports(s: Section, ghost done: seq<Section>) returns (r: Result<(), Error>)
      requires s.Imports? && Good(done, Order(s) - 1)
      modifies `imports, `importedGlobals, `pendingImport, `output
      ensures r.Ok? ==> Good(done + [s], Order(s))
      ensures r.Err? <==> Refused(old(View()), s)
    {
      hide State, Told, Escaped, Has, HasMore, MapOk, BadImport, ThunksOk, FunctionTypes, GlobalCount, Escaping;
      if BadImport(s.items, types) {
        return Err(InvalidType);
      }
      ghost var l := View();
      SpaceEmpty(l, thunkOf, output, done, s, sealed);
      imports, importedGlobals := FunctionTypes(s.items), GlobalCount(s.items);
      pendingImport := false;
      Emit(OutImports(s.items, types));
      StepSpace(l, View(), old(output), done, sealed, s);
      HasMoreAt(old(output), output, 2, true);
      SpaceMapped(View(), thunkOf);
      r := Ok(());
    }

    /** Only its place, until the thunks are known. */
    method ReadFunctions(s: Section, ghost done: seq<Section>) returns (r: Result<(), Error>)
      requires s.Functions? && Good(done, Order(s) - 1)
      modifies `functions, `slot, `held, `output
      ensures r.Ok? ==> Good(done + [s], Order(s))
      ensures r.Err? <==> Refused(old(View()), s)
    {
      hide State, Told, Escaped, Has, HasMore, MapOk, BadType, ThunksOk, Escaping;
      if BadType(s.tys, types) {
        return Err(InvalidType);
      }
      ghost var l := View();
      SpaceEmpty(l, thunkOf, output, done, s, sealed);
      BelowState(l, output, done, Order(s), sealed);
      functions := s.tys;
      slot := Some(|output|);
      held := Some(s);
      output := output + [Hole];
      StepSpace(l, View(), old(output), done, sealed, s);
      HasMoreAt(old(output), output, 3, true);
      SpaceMapped(View(), thunkOf);
      r := Ok(());
    }

    /** A section whose layout is known leaves its rewritten form. */
    method Write(s: Section, t: Out, ghost done: seq<Section>, ghost l: Layout)
      requires ThunksOk(View()) && (s.Globals? || s.Exports?) && t == Rewritten(View(), s)
      requires Mapped() && Slotted() && Holding(done) && Flags(Order(s) - 1)
      requires State(l, output, done, Order(s) - 1, sealed) && Told(l, done) && Reads(l, View(), s)
      requires (sealed ==> View().thunks == l.thunks) && Final(View(), s, Order(s), sealed)
      requires Escaped(View(), done + [s]) && (codeSeen ==> exists r :: r in done && r.Code?)
      modifies `output, `pendingGlobal, `pendingExport
      ensures Good(done + [s], Order(s))
    {
      hide State, Told, Escaped, Has, HasMore, MapOk, ThunksOk, Rewritten, Reads, Final;
      if s.Globals? {
        pendingGlobal := false;
      } else {
        pendingExport := false;
      }
      NotHole(View(), s);
      Emit(t);
      StepOk(l, View(), old(output), done, sealed, s);
      HasMoreAt(old(output), output, Order(s), true);
      CodeLonger(done, s);
    }

    method ReadGlobals(s: Section, ghost done: seq<Section>) returns (r: Result<(), Error>)
      requires s.Globals? && Good(done, Order(s) - 1)
      modifies `thunkOf, `thunks, `definedGlobals, `pendingGlobal, `pendingExport, `output
      ensures r.Ok? ==> Good(done + [s], Order(s))
      ensures r.Err? <==> Refused(old(View()), s)
    {
      hide State, Told, Escaped, Has, HasMore, MapOk, ThunksOk, Gained, ConstantLists, AllKnown, ListRefs, Refused, Rewritten,
        Reads, Final;
      NotRefused(View(), s);
      ghost var l := View();
      var inits := ListsOf(s.inits);
      if inits.Err? {
        return Err(Undeclared);
      }
      ghost var l1 := View();
      definedGlobals := |s.inits|;
      GlobalsRead(l, l1, View(), thunkOf, s, done, sealed);
      Write(s, OutGlobals(inits.value), done, l);
      r := Ok(());
    }

    method ReadExports(s: Section, ghost done: seq<Section>) returns (r: Result<(), Error>)
      requires s.Exports? && Good(done, Order(s) - 1)
      modifies `thunkOf, `thunks, `pendingGlobal, `pendingExport, `output
      ensures r.Ok? ==> Good(done + [s], Order(s))
      ensures r.Err? <==> Refused(old(View()), s)
    {
      hide State, Told, Escaped, Has, HasMore, MapOk, ThunksOk, Gained, ExportsOf, ExportRefs, AllKnown, Rewritten, Reads, Final;
      ghost var l := View();
      var exports := ExportsTo(s.exports);
      if exports.Err? {
        return Err(exports.error);
      }
      ExportsRead(l, View(), thunkOf, s, done, sealed);
      Write(s, OutExports(exports.value, importedGlobals + definedGlobals), done, l);
      r := Ok(());
    }

    method WriteElements(s: Section, t: Out, ghost done: seq<Section>, ghost l: Layout)
      requires ThunksOk(View()) && s.Elements? && t == Rewritten(View(), s)
      requires Mapped() && Slotted() && Holding(done) && Flags(9)
      requires State(l, output, done, 9, false) && Told(l, done) && Reads(l, View(), s)
      requires Final(View(), s, 10, true)
      requires Escaped(View(), done + [s]) && (codeSeen ==> exists r :: r in done && r.Code?)
      modifies `output, `elementsSeen, `sealed
      ensures Good(done + [s], 10)
    {
      hide State, Told, Escaped, Has, HasMore, MapOk, ThunksOk, Rewritten, Reads, Final, SealedOut, AllThunks;
      ReadsFunctions(l, View(), s);
      HeldIsFunctions(done, l);
      elementsSeen := true;
      NotHole(View(), s);
      Emit(t);
      StepElements(l, View(), old(output), done, slot, s);
      Seal();
      HasMoreAt(old(output), output, 10, true);
      CodeLonger(done, s);
    }

    method ReadElements(s: Section, ghost done: seq<Section>) returns (r: Result<(), Error>)
      requires s.Elements? && Good(done, Order(s) - 1)
      modifies `thunkOf, `thunks, `elementsSeen, `sealed, `output
      ensures r.Ok? ==> Good(done + [s], Order(s))
      ensures r.Err? <==> Refused(old(View()), s)
    {
      hide State, Told, Escaped, Has, HasMore, MapOk, ThunksOk, Gained, ConstantLists, AllKnown, ListRefs, Rewritten, AllThunks,
        Reads, Final, Escaping, Refused;
      NotRefused(View(), s);
      ghost var l := View();
      var segments := ListsOf(s.segments);
      if segments.Err? {
        return Err(Undeclared);
      }
      ElementsRead(l, View(), thunkOf, s, done, segments.value);
      WriteElements(s, OutElements(segments.value, AllThunks(View())), done, l);
      r := Ok(());
    }

    method ReadCode(s: Section, ghost done: seq<Section>) returns (r: Result<(), Error>)
      requires s.Code? && Good(done, Order(s) - 1)
      modifies `thunkOf, `thunks, `codeSeen, `output
      ensures r.Ok? ==> Good(done + [s], Order(s))
      ensures r.Err? <==> Refused(old(View()), s)
      ensures r.Ok? ==> codeSeen
    {
      hide State, Told, Escaped, Has, HasMore, MapOk, ThunksOk, Gained, ConstantLists, AllKnown, ListRefs, Rewritten;
      if |s.bodies| != |functions| {
        return Err(InvalidCode);
      }
      codeSeen := true;
      ghost var l := View();
      var bodies := ListsOf(s.bodies);
      if bodies.Err? {
        return Err(bodies.error);
      }
      CodeRead(l, View(), thunkOf, s, done);
      Emit(OutCode(bodies.value, thunks));
      StepOk(l, View(), old(output), done, sealed, s);
      HasMoreAt(old(output), output, 12, true);
      assert s in done + [s];
      r := Ok(());
    }

    /** The one memory, with its maximum lowered. */
    method ReadMemory(s: Section, ghost done: seq<Section>) returns (r: Result<(), Error>)
      requires s.Memory? && Good(done, Order(s) - 1)
      modifies `memorySeen, `output
      ensures r.Ok? ==> Good(done + [s], Order(s)) && memorySeen
      ensures r.Err? <==> Refused(View(), s)
    {
      hide State, Told, Escaped, Has, HasMore, MapOk, ThunksOk, BoundMemory.Bounded;
      ghost var l := View();
      MapThunks(l, thunkOf);
      memorySeen := true;
      var section := new Codec.Reader(s.payload, 0, |s.payload|);
      assert s.payload[0..|s.payload|] == s.payload;
      var bounded := BoundMemory.BoundedMemory(section, maximum);
      if bounded.Err? {
        return Err(InvalidMemory(bounded.error));
      }
      PlainRead(l, s, done, sealed);
      Emit(OutMemory(bounded.value));
      StepOk(l, View(), old(output), done, sealed, s);
      HasMoreAt(old(output), output, 5, true);
      r := Ok(());
    }

    /** Sections that hold no index, and the start section, which the host's index keeps. */
    method ReadPlain(s: Section, ghost done: seq<Section>)
      requires s.Tables? || s.Tags? || s.Start? || s.DataCount? || s.Data?
      requires Good(done, Order(s) - 1)
      modifies `output
      ensures Good(done + [s], Order(s))
    {
      hide State, Told, Escaped, Has, HasMore, MapOk, ThunksOk;
      ghost var l := View();
      MapThunks(l, thunkOf);
      PlainRead(l, s, done, sealed);
      Emit(if s.Start? then OutStart(if s.f >= |imports| then s.f + 1 else s.f) else Copy(s));
      StepOk(l, View(), old(output), done, sealed, s);
      HasMoreAt(old(output), output, Order(s), true);
    }

    method ReadOrdered(s: Section, ghost done: seq<Section>) returns (r: Result<(), Error>)
      requires Order(s) > 0 && Good(done, Order(s) - 1)
      modifies `types, `imports, `importedGlobals, `functions, `definedGlobals, `thunkOf, `thunks, `pendingType, `pendingImport,
               `pendingGlobal, `pendingExport, `elementsSeen, `memorySeen, `codeSeen, `sealed, `slot, `output, `held
      ensures r.Ok? ==> Good(done + [s], Order(s))
      ensures r.Err? <==> Refused(old(View()), s)
      ensures r.Ok? ==> memorySeen == (old(memorySeen) || s.Memory?) && codeSeen == (old(codeSeen) || s.Code?)
    {
      hide Good;
      r := Ok(());
      if s.Types? {
        ReadTypes(s, done);
      } else if s.Imports? {
        r := ReadImports(s, done);
      } else if s.Functions? {
        r := ReadFunctions(s, done);
      } else if s.Memory? {
        r := ReadMemory(s, done);
      } else if s.Globals? {
        r := ReadGlobals(s, done);
      } else if s.Exports? {
        r := ReadExports(s, done);
      } else if s.Elements? {
        r := ReadElements(s, done);
      } else if s.Code? {
        r := ReadCode(s, done);
      } else {
        ReadPlain(s, done);
      }
    }

    /** Custom sections: the names are renumbered once imports are known, a few are kept. */
    method ReadCustom(s: Section, ghost done: seq<Section>) returns (ghost written: bool)
      requires Order(s) == 0 && Good(done, lastOrder)
      modifies `output
      ensures written ==> Good(done + [s], lastOrder)
      ensures !written ==> Good(done, lastOrder) && output == old(output)
      ensures !written ==> s.Dropped? || (s.Names? && lastOrder < 2)
    {
      hide State, Told, Escaped, Has, HasMore, MapOk, ThunksOk;
      if s.Dropped? || (s.Names? && lastOrder < 2) {
        return false;
      }
      ghost var l := View();
      MapThunks(l, thunkOf);
      CustomRead(l, output, s, done, lastOrder, sealed);
      if s.Names? {
        output := output + [OutNames(Shifts(View(), s.functions))];
      } else {
        output := output + [Copy(s)];
      }
      HasMoreAt(old(output), output, 0, true);
      written := true;
    }

    method Advance(order: nat, ghost done: seq<Section>)
      requires Good(done, order)
      modifies `lastOrder
      ensures Good(done, lastOrder) && lastOrder == order
    {
      hide State, Told, Escaped, Has, MapOk;
      lastOrder := order;
    }

    lemma Reading(done: seq<Section>, o: nat)
      requires Good(done, o)
      ensures Told(View(), done) && Escaped(View(), done) && View().maximum == maximum
    {
    }

    lemma HeldIsFunctions(done: seq<Section>, l: Layout)
      requires Holding(done) && Told(l, done) && l.functions == functions
      ensures forall s | s in done && s.Functions? :: slot.Some? && s == Functions(functions)
      ensures slot.Some? ==> Functions(functions) in done
    {
      if slot.Some? {
        HeldSection(l, done, held.value);
      }
    }

    method Emit(t: Out)
      requires Slotted() && !t.Hole?
      modifies `output
      ensures output == old(output) + [t] && Slotted()
    {
      output := output + [t];
    }

    // ------------------------------------------------------- references

    /** The new index of function f where the code takes it as a value. */
    method ReferenceTo(f: nat) returns (r: Result<nat, Error>)
      requires Mapped()
      modifies `thunkOf, `thunks
      ensures r.Ok? ==> Mapped() && Gained(old(View()), View(), {f}, sealed)
      ensures r.Ok? ==> Sections.Known(View(), f) && r.value == Reference(View(), f)
      ensures r.Err? ==> sealed && !Sections.Known(old(View()), f)
    {
      hide MapOk, Gained, Reference, ThunksOk;
      if f >= |imports| || |functions| == 0 {
        NoThunk(View(), f, sealed);
        return Ok(if f >= |imports| then f + 1 else f);
      }
      if f in thunkOf {
        MapReads(View(), thunkOf, f);
        NothingGained(View(), thunkOf, f, sealed);
        return Ok(thunkOf[f]);
      }
      NotMapped(View(), thunkOf, f);
      if sealed {
        return Err(Undeclared);
      }
      MapSnoc(View(), thunkOf, f);
      var thunk := |imports| + 1 + |functions| + |thunks|;
      thunkOf := thunkOf[f := thunk];
      thunks := thunks + [f];
      r := Ok(thunk);
    }

    /** A constant expression, or the entries of a segment. */
    method ConstantsOf(cs: seq<Const>) returns (r: Result<seq<Const>, Error>)
      requires Mapped()
      modifies `thunkOf, `thunks
      ensures r.Ok? ==> Mapped() && Gained(old(View()), View(), ConstantRefs(cs), sealed)
      ensures r.Ok? ==> AllKnown(View(), ConstantRefs(cs)) && r.value == Constants(View(), cs)
      ensures r.Err? ==> sealed && !AllKnown(old(View()), ConstantRefs(cs))
    {
      hide MapOk, Gained, AllKnown, ConstantRefs, Constants;
      var out: seq<Const> := [];
      ghost var l := View();
      NoConstants(l, sealed);
      for i := 0 to |cs|
        invariant Mapped() && Gained(l, View(), ConstantRefs(cs[..i]), sealed)
        invariant AllKnown(View(), ConstantRefs(cs[..i])) && out == Constants(View(), cs[..i])
      {
        ghost var before, thunksBefore := View(), thunkOf;
        var c := cs[i];
        if c.RefFunc? {
          var f := ReferenceTo(c.f);
          if f.Err? {
            UnknownConstant(l, before, cs, i, sealed);
            return Err(f.error);
          }
          c := RefFunc(f.value);
        } else {
          NothingMore(before, sealed);
        }
        assert ThunksOk(before) by {
          MapThunks(before, thunksBefore);
        }
        ConstantNext(l, before, View(), thunkOf, cs[..i], cs[i], sealed);
        assert cs[..i + 1] == cs[..i] + [cs[i]];
        out := out + [c];
      }
      assert cs[..|cs|] == cs;
      r := Ok(out);
    }

    /** Initializers, segments or bodies, one after the other. */
    method ListsOf(css: seq<seq<Const>>) returns (r: Result<seq<seq<Const>>, Error>)
      requires Mapped()
      modifies `thunkOf, `thunks
      ensures r.Ok? ==> Mapped() && Gained(old(View()), View(), ListRefs(css), sealed)
      ensures r.Ok? ==> AllKnown(View(), ListRefs(css)) && r.value == ConstantLists(View(), css)
      ensures r.Err? ==> sealed && !AllKnown(old(View()), ListRefs(css))
    {
      hide MapOk, Gained, AllKnown, ConstantRefs, Constants, ListRefs, ConstantLists;
      var out: seq<seq<Const>> := [];
      ghost var l := View();
      NoLists(l, sealed);
      for i := 0 to |css|
        invariant Mapped() && Gained(l, View(), ListRefs(css[..i]), sealed)
        invariant AllKnown(View(), ListRefs(css[..i])) && out == ConstantLists(View(), css[..i])
      {
        ghost var before := View();
        MapThunks(before, thunkOf);
        var cs := ConstantsOf(css[i]);
        if cs.Err? {
          UnknownList(l, before, css, i, sealed);
          return Err(cs.error);
        }
        ListNext(l, before, View(), thunkOf, css[..i], css[i], sealed);
        assert css[..i + 1] == css[..i] + [css[i]];
        out := out + [cs.value];
      }
      assert css[..|css|] == css;
      r := Ok(out);
    }

    method ExportsTo(es: seq<Export>) returns (r: Result<seq<Export>, Error>)
      requires Mapped()
      modifies `thunkOf, `thunks
      ensures r.Ok? ==> Mapped() && Gained(old(View()), View(), ExportRefs(es), sealed)
      ensures r.Ok? ==> r.value == ExportsOf(View(), es) && !Reserved(es)
      ensures r.Err? ==> sealed || Reserved(es)
    {
      hide MapOk, Gained, ExportRefs, ExportsOf;
      var out: seq<Export> := [];
      ghost var l := View();
      NoExports(l, sealed);
      for i := 0 to |es|
        invariant Mapped() && Gained(l, View(), ExportRefs(es[..i]), sealed)
        invariant out == ExportsOf(View(), es[..i])
        invariant forall j | 0 <= j < i :: !es[j].reserved
      {
        ghost var before := View();
        var e := es[i];
        if e.reserved {
          return Err(ReservedExport);
        }
        if e.FuncExport? {
          var f := ReferenceTo(e.f);
          if f.Err? {
            return Err(f.error);
          }
          e := FuncExport(if e.f >= |imports| then e.f + 1 else e.f, e.reserved);
        } else {
          NothingMore(before, sealed);
        }
        ExportNext(l, before, View(), es[..i], es[i], sealed);
        assert es[..i + 1] == es[..i] + [es[i]];
        out := out + [e];
      }
      assert es[..|es|] == es;
      r := Ok(out);
    }
  }

  // ------------------------------------------------------------------ the loop

  /** What an instrumented module is, section by section, for its final layout. */
  ghost predicate Correct(sections: seq<Section>, l: Layout, out: seq<Out>) {
    && ThunksOk(l) && Told(l, sections) && Escaped(l, sections)
    && Ordered(out)
    && (forall s | s in sections && Order(s) > 0 :: Rewritten(l, s) in out)
    && (forall s | s in sections :: AllKnown(l, Referring(s)))
    && (forall t | t in out :: Added(l, t) || exists s :: s in sections && t == Rewritten(l, s))
    && Has(out, 1) && Has(out, 2) && Has(out, 7) && Has(out, 8)
    && (l.thunks != [] ==> Has(out, 10))
  }

  /** The sections that leave something in the output, as far as they were read. */
  ghost predicate Covers(sections: seq<Section>, k: nat, done: seq<Section>)
    requires k <= |sections|
  {
    && (forall s <- done :: s in sections[..k])
    && (forall i | 0 <= i < k && (Order(sections[i]) > 0 || sections[i].Kept?) :: sections[i] in done)
  }

  lemma CoversNext(sections: seq<Section>, k: nat, done: seq<Section>, written: bool)
    requires k < |sections| && Covers(sections, k, done)
    requires written || (Order(sections[k]) == 0 && !sections[k].Kept?)
    ensures Covers(sections, k + 1, if written then done + [sections[k]] else done)
  {
    var s := sections[k];
    assert s in sections[..k + 1] && s in done + [s] && forall r <- done :: r in done + [s];
    assert sections[..k + 1] == sections[..k] + [s];
  }

  lemma CoveredTold(sections: seq<Section>, done: seq<Section>, l: Layout)
    requires Covers(sections, |sections|, done) && Told(l, done) && Escaped(l, done)
    ensures Told(l, sections) && Escaped(l, sections)
  {
    forall s | s in sections && Order(s) > 0 ensures s in done {
      var i :| 0 <= i < |sections| && sections[i] == s;
    }
    forall s | s in sections ensures ReadAs(l, s) {
      assert Order(s) > 0 ==> s in done;
    }
    forall f: nat ensures Escapes(sections, f) <==> Escapes(done, f) {
      if s :| s in sections && f in Escaping(s) {
        assert s in done;
      }
    }
    assert Told(l, sections);
    hide Escapes;
  }

  /** The end of the loop: everything was read, and everything is sealed. */
  lemma AllCorrect(sections: seq<Section>, done: seq<Section>, l: Layout, out: seq<Out>)
    requires Covers(sections, |sections|, done)
    requires State(l, out, done, 13, true) && Told(l, done) && Escaped(l, done)
    requires Has(out, 1) && Has(out, 2) && Has(out, 7) && Has(out, 8) && (l.thunks != [] ==> Has(out, 10))
    ensures Correct(sections, l, out)
  {
    hide Told, Escaped, Has, Ordered, Below, ThunksOk, Rewritten, Sound, Complete, Added;
    CoveredTold(sections, done, l);
    AllWritten(sections, done, l, out);
    AllAccounted(sections, done, l, out);
    forall s | s in sections ensures AllKnown(l, Referring(s)) {
      CoveredOnce(sections, done, s);
      if s in done {
        assert Final(l, s, 13, true);
      } else {
        assert Referring(s) == {};
      }
    }
  }

  lemma CoveredOnce(sections: seq<Section>, done: seq<Section>, s: Section)
    requires Covers(sections, |sections|, done) && s in sections
    ensures Order(s) > 0 ==> s in done
  {
  }

  lemma AllWritten(sections: seq<Section>, done: seq<Section>, l: Layout, out: seq<Out>)
    requires Covers(sections, |sections|, done)
    requires ThunksOk(l) && Complete(l, out, done, true)
    ensures forall s | s in sections && Order(s) > 0 :: Rewritten(l, s) in out
  {
    hide ThunksOk, Rewritten, Covers;
    forall s | s in sections && Order(s) > 0 ensures Rewritten(l, s) in out {
      CoveredOnce(sections, done, s);
    }
  }

  lemma AllAccounted(sections: seq<Section>, done: seq<Section>, l: Layout, out: seq<Out>)
    requires Covers(sections, |sections|, done)
    requires ThunksOk(l) && Sound(l, out, done, true)
    ensures forall t | t in out :: Added(l, t) || exists s :: s in sections && t == Rewritten(l, s)
  {
    hide ThunksOk, Rewritten, Added;
    forall t | t in out ensures Added(l, t) || exists s :: s in sections && t == Rewritten(l, s) {
      var i :| 0 <= i < |out| && out[i] == t;
      SoundAt(l, out, done, true, i);
    }
  }

  // ------------------------------------------------------------- what it accepts

  /** The declared types, imports and functions are those of the last section of their kind. */
  function TypesOf(sections: seq<Section>): nat {
    if sections == [] then 0
    else if sections[|sections| - 1].Types? then sections[|sections| - 1].count
    else TypesOf(sections[..|sections| - 1])
  }

  function ImportsOf(sections: seq<Section>): seq<nat> {
    if sections == [] then []
    else if sections[|sections| - 1].Imports? then FunctionTypes(sections[|sections| - 1].items)
    else ImportsOf(sections[..|sections| - 1])
  }

  function FunctionsOf(sections: seq<Section>): seq<nat> {
    if sections == [] then []
    else if sections[|sections| - 1].Functions? then sections[|sections| - 1].tys
    else FunctionsOf(sections[..|sections| - 1])
  }

  /** Code refers to an import that no section before it lets escape. */
  ghost predicate Strays(before: seq<Section>, bodies: seq<seq<Const>>) {
    exists f <- ListRefs(bodies) :: f < |ImportsOf(before)| && FunctionsOf(before) != [] && !Escapes(before, f)
  }

  /** A section that cannot follow those before it. */
  ghost predicate Fault(before: seq<Section>, s: Section, maximum: nat) {
    && Order(s) > 0
    && ((exists r <- before :: Order(r) >= Order(s))
        || match s
           case Imports(items) => BadImport(items, TypesOf(before))
           case Functions(tys) => BadType(tys, TypesOf(before))
           case Memory(payload) => BoundMemory.Bounded(payload, maximum).Err?
           case Exports(es) => Reserved(es)
           case Code(bodies) => |bodies| != |FunctionsOf(before)| || Strays(before, bodies)
           case _ => false)
  }

  /** Every section is in order and in range, and the memory and the code are there. */
  ghost predicate Accepted(sections: seq<Section>, maximum: nat) {
    && (forall k | 0 <= k < |sections| :: !Fault(sections[..k], sections[k], maximum))
    && (exists s <- sections :: s.Memory?)
    && (FunctionsOf(sections) != [] ==> exists s <- sections :: s.Code?)
  }

  lemma {:induction false} DeclaredAre(l: Layout, before: seq<Section>, done: seq<Section>)
    requires Told(l, done) && (forall s <- done :: s in before)
    requires forall s <- before :: Order(s) > 0 ==> s in done
    ensures l.types == TypesOf(before) && l.imports == ImportsOf(before) && l.functions == FunctionsOf(before)
  {
    TypesAre(before);
    ImportsAre(before);
    FunctionsAre(before);
  }

  lemma {:induction false} TypesAre(s: seq<Section>)
    ensures (exists r <- s :: r.Types? && r.count == TypesOf(s)) || ((forall r <- s :: !r.Types?) && TypesOf(s) == 0)
  {
    if s != [] && !s[|s| - 1].Types? {
      TypesAre(s[..|s| - 1]);
      assert s == s[..|s| - 1] + [s[|s| - 1]];
    }
  }

  lemma {:induction false} ImportsAre(s: seq<Section>)
    ensures (exists r <- s :: r.Imports? && FunctionTypes(r.items) == ImportsOf(s))
         || ((forall r <- s :: !r.Imports?) && ImportsOf(s) == [])
  {
    if s != [] && !s[|s| - 1].Imports? {
      ImportsAre(s[..|s| - 1]);
      assert s == s[..|s| - 1] + [s[|s| - 1]];
    }
  }

  lemma {:induction false} FunctionsAre(s: seq<Section>)
    ensures (exists r <- s :: r.Functions? && r.tys == FunctionsOf(s)) || ((forall r <- s :: !r.Functions?) && FunctionsOf(s) == [])
  {
    if s != [] && !s[|s| - 1].Functions? {
      FunctionsAre(s[..|s| - 1]);
      assert s == s[..|s| - 1] + [s[|s| - 1]];
    }
  }

  lemma EscapesBefore(before: seq<Section>, done: seq<Section>, f: nat)
    requires (forall s <- done :: s in before) && forall s <- before :: Order(s) > 0 ==> s in done
    ensures Escapes(done, f) <==> Escapes(before, f)
  {
    if s :| s in before && f in Escaping(s) {
      assert s in done;
    }
  }

  lemma StraysAre(l: Layout, before: seq<Section>, done: seq<Section>, bodies: seq<seq<Const>>)
    requires Escaped(l, done) && l.imports == ImportsOf(before) && l.functions == FunctionsOf(before)
    requires (forall s <- done :: s in before) && forall s <- before :: Order(s) > 0 ==> s in done
    ensures !AllKnown(l, ListRefs(bodies)) <==> Strays(before, bodies)
  {
    hide ListRefs, ImportsOf, FunctionsOf;
    forall f: nat ensures Escapes(done, f) <==> Escapes(before, f) {
      EscapesBefore(before, done, f);
    }
    hide Escapes;
  }

  lemma Covered(sections: seq<Section>, k: nat, done: seq<Section>)
    requires k <= |sections| && Covers(sections, k, done)
    ensures forall s <- done :: s in sections[..k]
    ensures forall s <- sections[..k] :: Order(s) > 0 ==> s in done
  {
    forall s | s in sections[..k] && Order(s) > 0 ensures s in done {
      var i :| 0 <= i < k && sections[..k][i] == s;
      assert sections[i] == s;
    }
  }

  /** What the pass refuses is what the sections before it make a fault. */
  lemma RefusedAre(l: Layout, sections: seq<Section>, k: nat, done: seq<Section>, last: nat)
    requires k < |sections| && Covers(sections, k, done) && Told(l, done) && Escaped(l, done)
    requires forall r <- sections[..k] :: Order(r) <= last
    requires Order(sections[k]) > last
    ensures Fault(sections[..k], sections[k], l.maximum) <==> Refused(l, sections[k])
  {
    Covered(sections, k, done);
    DeclaredAre(l, sections[..k], done);
    hide Told, Escaped, Covers, TypesOf, ImportsOf, FunctionsOf, Strays, AllKnown, BadImport, BadType, Reserved;
    if sections[k].Code? {
      StraysAre(l, sections[..k], done, sections[k].bodies);
    }
  }

  /**
   * `instrument`, as far as sections go. What it emits while its counters and
   * its thunk map still grow is what the final layout says.
   */
  method Instrument(sections: seq<Section>, maximum: nat) returns (r: Result<seq<Out>, Error>, ghost l: Layout)
    ensures r.Ok? <==> Accepted(sections, maximum)
    ensures r.Ok? ==> l.maximum == maximum && Correct(sections, l, r.value)
  {
    hide *;
    var p := Begin(maximum);
    ghost var done: seq<Section> := [];
    l := p.View();
    NothingRead(sections, maximum);
    for k := 0 to |sections|
      invariant fresh(p) && p.maximum == maximum && p.lastOrder <= 13 && p.Good(done, p.lastOrder)
      invariant Covers(sections, k, done)
      invariant Faultless(sections, p.maximum, k, p.lastOrder, p.memorySeen, p.codeSeen)
    {
      var s := sections[k];
      var order := Order(s);
      OrderBound(s);
      if order == 0 {
        ghost var written := p.ReadCustom(s, done);
        CoversNext(sections, k, done, written);
        done := if written then done + [s] else done;
        CustomIsFine(sections, maximum, k);
        FaultlessNext(sections, maximum, k, p.lastOrder, p.memorySeen, p.codeSeen, p.lastOrder);
      } else {
        if order <= p.lastOrder {
          OutOfOrder(sections, maximum, k, p.lastOrder, p.memorySeen, p.codeSeen);
          return Err(SectionOrder), l;
        }
        ghost var last, memory, code := p.lastOrder, p.memorySeen, p.codeSeen;
        p.SynthesizeBefore(order, done, p.lastOrder);
        p.Reading(done, order - 1);
        FaultIs(p.View(), sections, k, done, last, memory, code);
        var read := p.ReadOrdered(s, done);
        if read.Err? {
          return Err(read.error), l;
        }
        CoversNext(sections, k, done, true);
        done := done + [s];
        FaultlessNext(sections, maximum, k, last, memory, code, order);
        p.Advance(order, done);
      }
    }
    r, l := Ended(p, sections, done);
  }

  /** The first k sections are in order and in range; the flags say what was among them. */
  ghost predicate Faultless(sections: seq<Section>, maximum: nat, k: nat, last: nat, memory: bool, code: bool) {
    && k <= |sections|
    && (forall i | 0 <= i < k :: !Fault(sections[..i], sections[i], maximum))
    && (forall r <- sections[..k] :: Order(r) <= last)
    && (last > 0 ==> exists r <- sections[..k] :: Order(r) == last)
    && (memory <==> exists r <- sections[..k] :: r.Memory?)
    && (code <==> exists r <- sections[..k] :: r.Code?)
  }

  lemma CustomIsFine(sections: seq<Section>, maximum: nat, k: nat)
    requires k < |sections| && Order(sections[k]) == 0
    ensures !Fault(sections[..k], sections[k], maximum) && !sections[k].Memory? && !sections[k].Code?
  {
  }

  lemma OutOfOrder(sections: seq<Section>, maximum: nat, k: nat, last: nat, memory: bool, code: bool)
    requires k < |sections| && Faultless(sections, maximum, k, last, memory, code) && 0 < Order(sections[k]) <= last
    ensures !Accepted(sections, maximum)
  {
    hide Order, Escapes;
    var r :| r in sections[..k] && Order(r) == last;
    assert Fault(sections[..k], sections[k], maximum);
  }

  lemma FaultIs(l: Layout, sections: seq<Section>, k: nat, done: seq<Section>, last: nat, memory: bool, code: bool)
    requires k < |sections| && Faultless(sections, l.maximum, k, last, memory, code) && Order(sections[k]) > last
    requires Covers(sections, k, done) && Told(l, done) && Escaped(l, done)
    ensures Fault(sections[..k], sections[k], l.maximum) <==> Refused(l, sections[k])
    ensures Refused(l, sections[k]) ==> !Accepted(sections, l.maximum)
  {
    hide Fault, Refused, Told, Escaped, Covers;
    RefusedAre(l, sections, k, done, last);
  }

  lemma FaultlessNext(sections: seq<Section>, maximum: nat, k: nat, last: nat, memory: bool, code: bool, order: nat)
    requires k < |sections| && Faultless(sections, maximum, k, last, memory, code) && !Fault(sections[..k], sections[k], maximum)
    requires order == (if Order(sections[k]) > last then Order(sections[k]) else last) && (Order(sections[k]) > 0 ==> order == Order(sections[k]))
    ensures Faultless(sections, maximum, k + 1, order, memory || sections[k].Memory?, code || sections[k].Code?)
  {
    hide Fault;
    var s, now := sections[k], sections[..k + 1];
    assert now == sections[..k] + [s];
    assert s in now && forall r <- sections[..k] :: r in now;
    assert forall r <- now :: r in sections[..k] || r == s;
  }

  lemma Judged(l: Layout, sections: seq<Section>, done: seq<Section>, last: nat, memory: bool, code: bool)
    requires Faultless(sections, l.maximum, |sections|, last, memory, code) && Covers(sections, |sections|, done) && Told(l, done)
    ensures Accepted(sections, l.maximum) <==> memory && (l.functions != [] ==> code)
  {
    assert sections[..|sections|] == sections;
    Covered(sections, |sections|, done);
    DeclaredAre(l, sections, done);
    hide Fault, Told, Covers, FunctionsOf;
  }

  method Begin(maximum: nat) returns (p: Pass)
    ensures fresh(p) && p.maximum == maximum && p.Good([], 0) && p.lastOrder == 0 && !p.memorySeen && !p.codeSeen
  {
    hide State, Told, Escaped, Has;
    p := new Pass(maximum);
    EmptyState(p.View());
  }

  lemma NothingRead(sections: seq<Section>, maximum: nat)
    ensures Covers(sections, 0, []) && Faultless(sections, maximum, 0, 0, false, false)
  {
  }

  lemma OrderBound(s: Section)
    ensures Order(s) <= 13
    ensures Order(s) == 0 && !s.Kept? ==> s.Dropped? || s.Names?
    ensures s.Dropped? || s.Names? ==> !s.Kept?
  {
  }

  method Ended(p: Pass, sections: seq<Section>, ghost done: seq<Section>) returns (r: Result<seq<Out>, Error>, ghost l: Layout)
    requires p.lastOrder <= 13 && p.Good(done, p.lastOrder) && Covers(sections, |sections|, done)
    requires Faultless(sections, p.maximum, |sections|, p.lastOrder, p.memorySeen, p.codeSeen)
    modifies p
    ensures r.Ok? <==> Accepted(sections, p.maximum)
    ensures r.Ok? ==> l.maximum == p.maximum && Correct(sections, l, r.value)
  {
    ghost var last := p.lastOrder;
    p.SynthesizeBefore(14, done, p.lastOrder);
    l := p.View();
    Judged(l, sections, done, last, p.memorySeen, p.codeSeen);
    if !p.memorySeen {
      return Err(OneMemory), l;
    }
    if |p.functions| > 0 && !p.codeSeen {
      return Err(InvalidCode), l;
    }
    r := Ok(p.output);
    hide Covers, State, Told, Escaped, Has;
    AllCorrect(sections, done, l, p.output);
  }

  lemma EmptyState(l: Layout)
    requires l == Layout(l.maximum, 0, [], 0, [], 0, [])
    ensures State(l, [], [], 0, false) && Told(l, []) && Escaped(l, []) && !Has([], 1) && !Has([], 2) && !Has([], 7) && !Has([], 8)
  {
  }

  lemma NoLists(l: Layout, sealed: bool)
    ensures ListRefs([]) == {} && ConstantLists(l, []) == [] && AllKnown(l, {}) && Gained(l, l, {}, sealed)
  {
  }

  lemma NoExports(l: Layout, sealed: bool)
    ensures ExportRefs([]) == {} && ExportsOf(l, []) == [] && Gained(l, l, {}, sealed)
  {
  }

  lemma ListsSnoc(l: Layout, css: seq<seq<Const>>, cs: seq<Const>)
    ensures ConstantLists(l, css + [cs]) == ConstantLists(l, css) + [Constants(l, cs)]
    ensures ListRefs(css + [cs]) == ListRefs(css) + ConstantRefs(cs)
  {
    var all := css + [cs];
    assert all[|css|] == cs && forall i | 0 <= i < |css| :: all[i] == css[i];
    forall f ensures f in ListRefs(all) <==> f in ListRefs(css) + ConstantRefs(cs) {
      if f in ConstantRefs(cs) {
        var j :| 0 <= j < |cs| && cs[j].RefFunc? && cs[j].f == f;
        assert all[|css|][j].f == f;
      }
      if f in ListRefs(css) {
        var i, j :| 0 <= i < |css| && 0 <= j < |css[i]| && css[i][j].RefFunc? && css[i][j].f == f;
        assert all[i][j].f == f;
      }
    }
    hide Constants;
  }

  lemma ListNext(l: Layout, l1: Layout, l2: Layout, thunkOf: map<nat, nat>, css: seq<seq<Const>>, cs: seq<Const>, sealed: bool)
    requires ThunksOk(l1) && MapOk(l2, thunkOf)
    requires Gained(l, l1, ListRefs(css), sealed) && AllKnown(l1, ListRefs(css))
    requires Gained(l1, l2, ConstantRefs(cs), sealed) && AllKnown(l2, ConstantRefs(cs))
    ensures Gained(l, l2, ListRefs(css + [cs]), sealed)
    ensures AllKnown(l2, ListRefs(css + [cs]))
    ensures ConstantLists(l2, css + [cs]) == ConstantLists(l1, css) + [Constants(l2, cs)]
  {
    hide Sections.Known, ListRefs, ConstantRefs, ConstantLists;
    ListsStable(l1, l2, css);
    ListsSnoc(l2, css, cs);
    GainedMore(l, l1, l2, ListRefs(css), ConstantRefs(cs), sealed);
  }

  lemma ExportNext(l: Layout, l1: Layout, l2: Layout, es: seq<Export>, e: Export, sealed: bool)
    requires Gained(l, l1, ExportRefs(es), sealed)
    requires Gained(l1, l2, if e.FuncExport? then {e.f} else {}, sealed)
    ensures Gained(l, l2, ExportRefs(es + [e]), sealed)
    ensures ExportsOf(l2, es + [e]) == ExportsOf(l1, es) + [Exported(l2, e)]
  {
    var all, more := es + [e], if e.FuncExport? then {e.f} else {};
    assert forall j | 0 <= j < |es| :: all[j] == es[j];
    assert ExportRefs(all) == ExportRefs(es) + more by {
      assert all[|es|] == e;
    }
    GainedMore(l, l1, l2, ExportRefs(es), more, sealed);
  }

  lemma MapThunks(l: Layout, thunkOf: map<nat, nat>)
    requires MapOk(l, thunkOf)
    ensures ThunksOk(l)
  {
  }

  lemma NoThunk(l: Layout, f: nat, sealed: bool)
    requires f >= |l.imports| || l.functions == []
    ensures Gained(l, l, {f}, sealed)
    ensures Sections.Known(l, f) && Reference(l, f) == if f >= |l.imports| then f + 1 else f
  {
  }

  lemma NothingGained(l: Layout, thunkOf: map<nat, nat>, f: nat, sealed: bool)
    requires MapOk(l, thunkOf) && f in thunkOf
    ensures Gained(l, l, {f}, sealed)
  {
  }

  lemma NotMapped(l: Layout, thunkOf: map<nat, nat>, f: nat)
    requires MapOk(l, thunkOf) && f !in thunkOf
    ensures f !in l.thunks
  {
  }

  lemma NothingMore(l: Layout, sealed: bool)
    ensures Gained(l, l, {}, sealed)
  {
  }

  lemma NoConstants(l: Layout, sealed: bool)
    ensures ConstantRefs([]) == {} && Constants(l, []) == [] && AllKnown(l, {}) && Gained(l, l, {}, sealed)
  {
  }

  lemma ConstantNext(l: Layout, l1: Layout, l2: Layout, thunkOf: map<nat, nat>, cs: seq<Const>, c: Const, sealed: bool)
    requires ThunksOk(l1) && MapOk(l2, thunkOf)
    requires Gained(l, l1, ConstantRefs(cs), sealed) && AllKnown(l1, ConstantRefs(cs))
    requires Gained(l1, l2, if c.RefFunc? then {c.f} else {}, sealed)
    requires c.RefFunc? ==> Sections.Known(l2, c.f)
    ensures Gained(l, l2, ConstantRefs(cs + [c]), sealed)
    ensures AllKnown(l2, ConstantRefs(cs + [c]))
    ensures Constants(l2, cs + [c]) == Constants(l1, cs) + [Constant(l2, c)]
  {
    hide Constant, Sections.Known;
    var more := if c.RefFunc? then {c.f} else {};
    ConstantsStable(l1, l2, cs);
    ConstantsSnoc(l2, cs, c);
    GainedMore(l, l1, l2, ConstantRefs(cs), more, sealed);
    hide ConstantRefs, Constants;
  }

  lemma IndexIsUnique(l: Layout, f: nat)
    requires ThunksOk(l) && f in l.thunks
    ensures forall k | 0 <= k < |l.thunks| && l.thunks[k] == f :: k == Rewriter.IndexOf(l.thunks, f)
  {
  }

  lemma ConstantsSnoc(l: Layout, cs: seq<Const>, c: Const)
    ensures Constants(l, cs + [c]) == Constants(l, cs) + [Constant(l, c)]
    ensures ConstantRefs(cs + [c]) == ConstantRefs(cs) + (if c.RefFunc? then {c.f} else {})
  {
    var all := cs + [c];
    assert forall f :: f in ConstantRefs(cs) ==> f in ConstantRefs(all) by {
      forall j | 0 <= j < |cs| ensures all[j] == cs[j] {
      }
    }
    if c.RefFunc? {
      assert all[|cs|] == c;
    }
  }
}
