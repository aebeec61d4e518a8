/** What a response holds, slot by slot, against what the resolvers answered: a relation by the types
    of the schema that the responses of the code satisfy and that leaves no choice. */
module ResponseValues {
  import opened Options
  import opened IntrospectionTables
  import opened Execution
  import opened NullPropagation

  // ----- the response that the answers call for -----

  /** One slot per selection, in order. */
  ghost predicate ShowsObject(w: World, path: Path, o: ObjType, sels: seq<Sel>, id: nat, out: Out)
    decreases out, 0
  {
    && out.Object? && out.o == o && |out.slots| == |sels|
    && forall i :: 0 <= i < |sels| ==> ShowsSlot(w, path + [i], o, sels[i], id, out.slots[i])
  }

  /** A slot is Null exactly when propagation says so, and otherwise shows the resolver's answer. */
  ghost predicate ShowsSlot(w: World, path: Path, o: ObjType, sel: Sel, id: nat, out: Out)
    decreases out, 2
  {
    if sel.name == Typename then out == Scalar(TypeName(o)) else
    && SpecType(o, sel.name).Some?
    && (out == Null <==> FieldNulled(w, path, o, sel, id))
    && (out != Null ==> match Outcome(w, path, o, sel, id)
                        case None => false
                        case Some(v) => ShowsValue(w, path, SpecType(o, sel.name).value, sel.subs, v, out))
  }

  /** A leaf shows its own text, a reference the object it refers to at this very path, a list its
      elements in order. */
  ghost predicate ShowsValue(w: World, path: Path, t: TypeRef, subs: seq<Sel>, v: Value, out: Out)
    decreases out, 1, t
  {
    match t
    case NonNull(of) => ShowsValue(w, path, of, subs, v, out)
    case Leaf => v.LeafValue? && v.text.Some? && out == Scalar(v.text.value)
    case Named(o) => v.Ref? && ShowsObject(w, path, o, subs, v.id, out)
    case ListOf(elem) =>
      out.Array? && match v
      case NilValue => out.elems == []
      case LeafList(texts) =>
        |out.elems| == |texts|
        && forall i :: 0 <= i < |texts| ==> ShowsValue(w, path + [i], elem, subs, LeafValue(texts[i]), out.elems[i])
      case RefList(ids) =>
        |out.elems| == |ids|
        && forall i :: 0 <= i < |ids| ==> ShowsValue(w, path + [i], elem, subs, Ref(ids[i]), out.elems[i])
      case _ => false
  }

  // ----- the code's responses -----

  /** At every depth a response that is not Null shows what the resolvers answered. */
  lemma {:induction false} ObjectShows(w: World, path: Path, o: ObjType, sels: seq<Sel>, id: nat)
    requires ObjectRun(w, path, o, sels, id).Done? && ObjectRun(w, path, o, sels, id).out != Null
    ensures ShowsObject(w, path, o, sels, id, ObjectRun(w, path, o, sels, id).out)
    decreases sels, 1
  {
    var runs := ObjectAt(w, path, o, sels, id);
    ObjectOf(o, sels, runs);
    var out := ObjectRun(w, path, o, sels, id).out;
    forall i | 0 <= i < |sels| ensures ShowsSlot(w, path + [i], o, sels[i], id, out.slots[i]) {
      assert runs[i].Done? && out.slots[i] == runs[i].out;
      SlotShows(w, path, o, sels, id, i);
    }
  }

  lemma {:induction false} SlotShows(w: World, path: Path, o: ObjType, sels: seq<Sel>, id: nat, i: nat)
    requires i < |sels| && SlotRun(w, path, o, sels, id, i).Done?
    ensures ShowsSlot(w, path + [i], o, sels[i], id, SlotRun(w, path, o, sels, id, i).out)
    decreases sels, 0
  {
    TablesAgree(o, sels[i].name);
    if sels[i].name != Typename {
      SlotIsField(w, path, o, sels, id, i);
      FieldNullIffChain(w, path + [i], o, sels[i], id);
      FieldShows(w, path + [i], o, sels[i], id);
    }
  }

  lemma {:induction false} FieldShows(w: World, path: Path, o: ObjType, sel: Sel, id: nat)
    requires SpecType(o, sel.name).Some? && FieldRun(w, path, o, sel, id).Done?
    ensures FieldRun(w, path, o, sel, id).out != Null ==>
              Outcome(w, path, o, sel, id).Some?
              && ShowsValue(w, path, SpecType(o, sel.name).value, sel.subs, Outcome(w, path, o, sel, id).value,
                            FieldRun(w, path, o, sel, id).out)
    decreases sel, 1
  {
    TablesAgree(o, sel.name);
    SpecIsEngine(o, sel.name);
    ArgumentsAgree(o, sel.name, sel.raw);
    var m, r, out := MarshallerOf(o, sel.name), Resolve(w, path, o, sel.name, id), FieldRun(w, path, o, sel, id).out;
    if out != Null {
      FieldIsDelivered(w, path, o, sel, id);
      var v := r.result.value;
      FitsByType(m, v);
      CompleteShows(w, path, m, sel.subs, v, r.reported);
      assert ShowsValue(w, path, EngineType(o, sel.name).value, sel.subs, v, out);
    }
  }

  lemma {:induction false} CompleteShows(w: World, path: Path, m: Marshaller, subs: seq<Sel>, v: Value, noted: bool)
    requires Fits(m, v) && Complete(w, path, m, subs, v, noted).Done?
    ensures Complete(w, path, m, subs, v, noted).out != Null ==>
              ShowsValue(w, path, TypeOfMarshaller(m), subs, v, Complete(w, path, m, subs, v, noted).out)
    decreases subs, 5
  {
    var out := Complete(w, path, m, subs, v, noted).out;
    if out != Null {
      match m
      case NLeaf => assert ShowsValue(w, path, Leaf, subs, v, out);
      case OLeaf =>
      case OLeafPtr =>
      case NPtr(o) => ObjectShows(w, path, o, subs, v.id); assert ShowsValue(w, path, Named(o), subs, v, out);
      case OPtr(o) => ObjectShows(w, path, o, subs, v.id);
      case NList(elem) => ListShows(w, path, elem, subs, v);
      case OList(elem) => ListShows(w, path, elem, subs, v);
    }
  }

  lemma {:induction false} ListShows(w: World, path: Path, elem: Elem, subs: seq<Sel>, v: Value)
    requires Fits(NList(elem), v) && ListRun(w, path, elem, subs, v).Done?
    requires ListRun(w, path, elem, subs, v).out != Null
    ensures ShowsValue(w, path, ListOf(ElemType(elem)), subs, v, ListRun(w, path, elem, subs, v).out)
    decreases subs, 4
  {
    var runs := ListAt(w, path, elem, subs, v);
    ArrayOf(runs);
    var out := ListRun(w, path, elem, subs, v).out;
    forall i | 0 <= i < |runs|
      ensures ShowsValue(w, path + [i], ElemType(elem), subs, Item(v, i), out.elems[i])
    {
      assert runs[i].Done? && runs[i].out != Null && out.elems[i] == runs[i].out;
      ElemShows(w, path, elem, subs, v, i);
    }
  }

  lemma {:induction false} ElemShows(w: World, path: Path, elem: Elem, subs: seq<Sel>, v: Value, i: nat)
    requires Fits(NList(elem), v) && i < Count(v)
    requires ElemRun(w, path, elem, subs, v, i).Done? && ElemRun(w, path, elem, subs, v, i).out != Null
    ensures ShowsValue(w, path + [i], ElemType(elem), subs, Item(v, i), ElemRun(w, path, elem, subs, v, i).out)
    decreases subs, 3
  {
    var out := ElemRun(w, path, elem, subs, v, i).out;
    match elem
    case LeafElem => assert ShowsValue(w, path + [i], Leaf, subs, Item(v, i), out);
    case ObjectElem(o) =>
      ObjectShows(w, path + [i], o, subs, v.ids[i]);
      assert ShowsValue(w, path + [i], Named(o), subs, Item(v, i), out);
  }

  // ----- no other response -----

  lemma {:induction false} ObjectUnique(w: World, path: Path, o: ObjType, sels: seq<Sel>, id: nat, a: Out, b: Out)
    requires ShowsObject(w, path, o, sels, id, a) && ShowsObject(w, path, o, sels, id, b)
    ensures a == b
    decreases a, 0
  {
    forall i | 0 <= i < |sels| ensures a.slots[i] == b.slots[i] {
      SlotUnique(w, path + [i], o, sels[i], id, a.slots[i], b.slots[i]);
    }
    assert a.slots == b.slots;
  }

  lemma {:induction false} SlotUnique(w: World, path: Path, o: ObjType, sel: Sel, id: nat, a: Out, b: Out)
    requires ShowsSlot(w, path, o, sel, id, a) && ShowsSlot(w, path, o, sel, id, b)
    ensures a == b
    decreases a, 2
  {
    if sel.name != Typename && a != Null {
      ValueUnique(w, path, SpecType(o, sel.name).value, sel.subs, Outcome(w, path, o, sel, id).value, a, b);
    }
  }

  lemma {:induction false} ValueUnique(w: World, path: Path, t: TypeRef, subs: seq<Sel>, v: Value, a: Out, b: Out)
    requires ShowsValue(w, path, t, subs, v, a) && ShowsValue(w, path, t, subs, v, b)
    ensures a == b
    decreases a, 1, t
  {
    match t
    case NonNull(of) => ValueUnique(w, path, of, subs, v, a, b);
    case Leaf =>
    case Named(o) => ObjectUnique(w, path, o, subs, v.id, a, b);
    case ListOf(elem) => ElemsUnique(w, path, elem, subs, v, a, b);
  }

  lemma {:induction false} ElemsUnique(w: World, path: Path, elem: TypeRef, subs: seq<Sel>, v: Value, a: Out, b: Out)
    requires ShowsValue(w, path, ListOf(elem), subs, v, a) && ShowsValue(w, path, ListOf(elem), subs, v, b)
    ensures a == b
    decreases a, 0
  {
    forall i | 0 <= i < |a.elems| ensures a.elems[i] == b.elems[i] {
      ValueUnique(w, path + [i], elem, subs, if v.LeafList? then LeafValue(v.texts[i]) else Ref(v.ids[i]),
                  a.elems[i], b.elems[i]);
    }
    assert a.elems == b.elems;
  }

  /** The data of a response, exactly: Null by propagation, or else the one object that the answers
      call for. */
  lemma ResponseExact(w: World, path: Path, o: ObjType, sels: seq<Sel>, id: nat, out: Out)
    requires ObjectRun(w, path, o, sels, id).Done?
    ensures ObjectRun(w, path, o, sels, id).out == out
       <==> if o != QueryObject && ObjectNulled(w, path, o, sels, id) then out == Null
            else ShowsObject(w, path, o, sels, id, out)
  {
    ObjectNullIffChain(w, path, o, sels, id);
    if ObjectRun(w, path, o, sels, id).out != Null {
      ObjectShows(w, path, o, sels, id);
      if ShowsObject(w, path, o, sels, id, out) {
        ObjectUnique(w, path, o, sels, id, out, ObjectRun(w, path, o, sels, id).out);
      }
    }
  }
}
