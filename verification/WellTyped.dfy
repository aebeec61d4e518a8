/** The shape of responses: no Null in a non-null position at any depth, and no more depth than
    the selection asks for, however the data loops. */
module WellTyped {
  import opened Options
  import opened IntrospectionTables
  import opened Execution
  import opened NullPropagation

  /** The result is a value of the type for this selection set. */
  predicate Conforms(out: Out, t: TypeRef, sels: seq<Sel>)
    decreases out, t
  {
    match t
    case NonNull(of) => out != Null && Conforms(out, of, sels)
    case Leaf => out == Null || out.Scalar?
    case Named(o) =>
      out == Null || (out.Object? && out.o == o && |out.slots| == |sels|
        && forall i :: 0 <= i < |sels| ==> ConformsSlot(out.slots[i], o, sels[i]))
    case ListOf(elem) =>
      out == Null || (out.Array? && forall i :: 0 <= i < |out.elems| ==> Conforms(out.elems[i], elem, sels))
  }

  predicate ConformsSlot(out: Out, o: ObjType, sel: Sel)
    decreases out
  {
    if sel.name == Typename then out == Scalar(TypeName(o))
    else EngineType(o, sel.name).Some? && Conforms(out, EngineType(o, sel.name).value, sel.subs)
  }

  /** A result that is not Null has, in every non-null slot and every list of non-null elements
      at any depth, no Null. */
  lemma {:induction false} ObjectConforms(w: World, path: Path, o: ObjType, sels: seq<Sel>, id: nat)
    requires ObjectRun(w, path, o, sels, id).Done?
    ensures Conforms(ObjectRun(w, path, o, sels, id).out, Named(o), sels)
    decreases sels, 0
  {
    var runs := ObjectAt(w, path, o, sels, id);
    ObjectOf(o, sels, runs);
    var out := ObjectRun(w, path, o, sels, id).out;
    if out != Null {
      forall i | 0 <= i < |sels| ensures ConformsSlot(out.slots[i], o, sels[i]) {
        assert runs[i].Done? && out.slots[i] == runs[i].out && !Invalid(o, sels[i], runs[i].out);
        SlotConforms(w, path, o, sels, id, i);
      }
    }
  }

  lemma {:induction false} SlotConforms(w: World, path: Path, o: ObjType, sels: seq<Sel>, id: nat, i: nat)
    requires i < |sels| && SlotRun(w, path, o, sels, id, i).Done?
    requires !Invalid(o, sels[i], SlotRun(w, path, o, sels, id, i).out)
    ensures ConformsSlot(SlotRun(w, path, o, sels, id, i).out, o, sels[i])
    decreases sels[i], 2
  {
    TablesAgree(o, sels[i].name);
    if sels[i].name != Typename {
      FieldConforms(w, path + [i], o, sels[i], id);
      InvalidIsNonNull(o, sels[i], SlotRun(w, path, o, sels, id, i).out);
      NullConforms(EngineType(o, sels[i].name).value, sels[i].subs);
    }
  }

  lemma NullConforms(t: TypeRef, sels: seq<Sel>)
    ensures Conforms(Null, t, sels) <==> !t.NonNull?
  {}

  lemma {:induction false} FieldConforms(w: World, path: Path, o: ObjType, sel: Sel, id: nat)
    requires EngineType(o, sel.name).Some? && FieldRun(w, path, o, sel, id).Done?
    ensures var out := FieldRun(w, path, o, sel, id).out;
            out == Null || Conforms(out, EngineType(o, sel.name).value, sel.subs)
    decreases sel, 1
  {
    TablesAgree(o, sel.name);
    var r := Resolve(w, path, o, sel.name, id);
    if FieldRun(w, path, o, sel, id).out != Null {
      CompleteConforms(w, path, MarshallerOf(o, sel.name), sel.subs, r.result.value, r.reported);
    }
  }

  lemma {:induction false} CompleteConforms(w: World, path: Path, m: Marshaller, subs: seq<Sel>, v: Value, noted: bool)
    requires Fits(m, v) && Complete(w, path, m, subs, v, noted).Done?
    ensures var out := Complete(w, path, m, subs, v, noted).out;
            out == Null || Conforms(out, TypeOfMarshaller(m), subs)
    decreases subs, 2
  {
    var out := Complete(w, path, m, subs, v, noted).out;
    match m
    case NLeaf => assert out != Null ==> Conforms(out, Leaf, subs);
    case OLeaf =>
    case OLeafPtr =>
    case NPtr(o) =>
      if !v.NilValue? { ObjectConforms(w, path, o, subs, v.id); }
    case OPtr(o) =>
      if !v.NilValue? { ObjectConforms(w, path, o, subs, v.id); }
    case NList(elem) => ListConforms(w, path, elem, subs, v);
    case OList(elem) =>
      if !v.NilValue? { ListConforms(w, path, elem, subs, v); }
  }

  lemma {:induction false} ListConforms(w: World, path: Path, elem: Elem, subs: seq<Sel>, v: Value)
    requires Fits(NList(elem), v) && ListRun(w, path, elem, subs, v).Done?
    ensures Conforms(ListRun(w, path, elem, subs, v).out, ListOf(ElemType(elem)), subs)
    decreases subs, 1
  {
    var runs := ListAt(w, path, elem, subs, v);
    ArrayOf(runs);
    var out := ListRun(w, path, elem, subs, v).out;
    if out != Null {
      forall i | 0 <= i < |out.elems| ensures Conforms(out.elems[i], ElemType(elem), subs) {
        assert runs[i].Done? && runs[i].out != Null;
        match elem
        case LeafElem => assert Conforms(out.elems[i], Leaf, subs);
        case ObjectElem(o) => ObjectConforms(w, path + [i], o, subs, v.ids[i]);
      }
    }
  }

  // ----- depth -----

  function Max(a: nat, b: nat): nat {
    if a > b then a else b
  }

  function Height(out: Out): nat {
    match out
    case Null => 0
    case Scalar(_) => 0
    case Object(_, slots) => 1 + Heights(slots)
    case Array(elems) => 1 + Heights(elems)
  }

  function Heights(outs: seq<Out>): nat {
    if |outs| == 0 then 0 else Max(Height(outs[0]), Heights(outs[1..]))
  }

  function Nesting(sels: seq<Sel>): nat {
    if |sels| == 0 then 0 else Max(1 + Nesting(sels[0].subs), Nesting(sels[1..]))
  }

  /** The height of several results is the greatest of theirs, */
  lemma {:induction false} HeightsBound(outs: seq<Out>, h: nat)
    ensures Heights(outs) <= h <==> forall i :: 0 <= i < |outs| ==> Height(outs[i]) <= h
  {
    if |outs| > 0 {
      HeightsBound(outs[1..], h);
      assert outs == [outs[0]] + outs[1..];
    }
  }

  /** and the nesting of a selection set the greatest of its members'. */
  lemma {:induction false} NestingBound(sels: seq<Sel>, n: nat)
    ensures Nesting(sels) <= n <==> forall i :: 0 <= i < |sels| ==> 1 + Nesting(sels[i].subs) <= n
    decreases |sels|
  {
    if |sels| > 0 {
      NestingBound(sels[1..], n);
      assert sels == [sels[0]] + sels[1..];
    }
  }

  /** A response is no deeper than its selection allows: one object per level and a list around it.
      The data plays no part, so a type that reaches itself cannot make it larger. */
  lemma {:induction false} DepthBoundedBySelection(w: World, path: Path, o: ObjType, sels: seq<Sel>, id: nat)
    requires ObjectRun(w, path, o, sels, id).Done?
    ensures Height(ObjectRun(w, path, o, sels, id).out) <= 1 + 2 * Nesting(sels)
    decreases sels, 0
  {
    var runs := ObjectAt(w, path, o, sels, id);
    ObjectOf(o, sels, runs);
    var out := ObjectRun(w, path, o, sels, id).out;
    if out != Null {
      forall i | 0 <= i < |out.slots| ensures Height(out.slots[i]) <= 2 * Nesting(sels) {
        assert runs[i].Done? && out.slots[i] == runs[i].out;
        NestingBound(sels, Nesting(sels));
        SlotDepth(w, path, o, sels, id, i);
      }
      HeightsBound(out.slots, 2 * Nesting(sels));
    }
  }

  lemma {:induction false} SlotDepth(w: World, path: Path, o: ObjType, sels: seq<Sel>, id: nat, i: nat)
    requires i < |sels| && SlotRun(w, path, o, sels, id, i).Done?
    ensures Height(SlotRun(w, path, o, sels, id, i).out) <= 2 + 2 * Nesting(sels[i].subs)
    decreases sels[i], 2
  {
    match Switch(o, sels[i].name)
    case TypenameCase =>
    case Panics =>
    case _ => FieldDepth(w, path + [i], o, sels[i], id);
  }

  lemma {:induction false} FieldDepth(w: World, path: Path, o: ObjType, sel: Sel, id: nat)
    requires FieldRun(w, path, o, sel, id).Done?
    ensures Height(FieldRun(w, path, o, sel, id).out) <= 2 + 2 * Nesting(sel.subs)
    decreases sel, 1
  {
    var r := Resolve(w, path, o, sel.name, id);
    if FieldRun(w, path, o, sel, id).out != Null {
      CompleteDepth(w, path, MarshallerOf(o, sel.name), sel.subs, r.result.value, r.reported);
    }
  }

  lemma {:induction false} CompleteDepth(w: World, path: Path, m: Marshaller, subs: seq<Sel>, v: Value, noted: bool)
    requires Fits(m, v) && Complete(w, path, m, subs, v, noted).Done?
    ensures Height(Complete(w, path, m, subs, v, noted).out) <= 2 + 2 * Nesting(subs)
    decreases subs, 2
  {
    match m
    case NPtr(o) => if !v.NilValue? { DepthBoundedBySelection(w, path, o, subs, v.id); }
    case OPtr(o) => if !v.NilValue? { DepthBoundedBySelection(w, path, o, subs, v.id); }
    case NList(elem) => ListDepth(w, path, elem, subs, v);
    case OList(elem) => if !v.NilValue? { ListDepth(w, path, elem, subs, v); }
    case _ =>
  }

  lemma {:induction false} ListDepth(w: World, path: Path, elem: Elem, subs: seq<Sel>, v: Value)
    requires Fits(NList(elem), v) && ListRun(w, path, elem, subs, v).Done?
    ensures Height(ListRun(w, path, elem, subs, v).out) <= 2 + 2 * Nesting(subs)
    decreases subs, 1
  {
    var runs := ListAt(w, path, elem, subs, v);
    ArrayOf(runs);
    var out := ListRun(w, path, elem, subs, v).out;
    if out != Null {
      forall i | 0 <= i < |out.elems| ensures Height(out.elems[i]) <= 1 + 2 * Nesting(subs) {
        assert runs[i].Done? && out.elems[i] == runs[i].out;
        if elem.ObjectElem? {
          DepthBoundedBySelection(w, path + [i], elem.o, subs, v.ids[i]);
        }
      }
      HeightsBound(out.elems, 1 + 2 * Nesting(subs));
    }
  }
}
