/** Null propagation against sections 6.4.3 and 6.4.4 of the GraphQL specification. By the types of the
    schema a position is null exactly when a route of non-null positions leads from it to a failure
    or a nil. The code agrees except in two places, each isolated here: a nil slice where the type
    is a non-null list, and the root, since `__schema` may be null in the code. */
module NullPropagation {
  import opened Options
  import opened IntrospectionTables
  import opened Execution

  // ----- the specification, by types and routes -----

  /** The value has the shape of the type; nil is admitted everywhere. */
  predicate FitsType(t: TypeRef, v: Value) {
    match t
    case NonNull(of) => FitsType(of, v)
    case Leaf => v.NilValue? || v.LeafValue?
    case Named(_) => v.NilValue? || v.Ref?
    case ListOf(elem) => v.NilValue? || (if BaseObject(elem).None? then v.LeafList? else v.RefList?)
  }

  function Item(v: Value, i: nat): Value
    requires i < Count(v)
  {
    match v
    case LeafList(texts) => LeafValue(texts[i])
    case RefList(ids) => Ref(ids[i])
  }

  /** With introspection disabled both root fields fail. */
  predicate Closed(w: World, o: ObjType) {
    o == QueryObject && w.introspectionDisabled
  }

  /** The value that a field resolves to, None after a field error or without a result. */
  function Outcome(w: World, path: Path, o: ObjType, sel: Sel, id: nat): Option<Value>
    requires SpecType(o, sel.name).Some?
  {
    if Uncoercible(o, sel.name, sel.raw) || Closed(w, o) then None else
    match w.resolve(path, o, sel.name, id).result
    case Failed => None
    case Absent => None
    case Got(v) => if FitsType(SpecType(o, sel.name).value, v) then Some(v) else None
  }

  /** The route leads from this field, through non-null positions, to a position that is null by
      itself. */
  ghost predicate FieldChain(w: World, path: Path, o: ObjType, sel: Sel, id: nat, route: Path)
    decreases |route|, 2
  {
    SpecType(o, sel.name).Some? &&
    match Outcome(w, path, o, sel, id)
    case None => route == []
    case Some(v) => ValueChain(w, path, SpecType(o, sel.name).value, sel.subs, v, route)
  }

  /** The same for a value completed as a type. */
  ghost predicate ValueChain(w: World, path: Path, t: TypeRef, subs: seq<Sel>, v: Value, route: Path)
    decreases |route|, 1, t
  {
    match t
    case NonNull(of) => ValueChain(w, path, of, subs, v, route)
    case Leaf => route == [] && (v.NilValue? || (v.LeafValue? && v.text.None?))
    case Named(o) =>
      if v.NilValue? then route == []
      else v.Ref? && ObjectChain(w, path, o, subs, v.id, route)
    case ListOf(elem) =>
      if v.NilValue? then route == []
      else
        && |route| > 0 && elem.NonNull? && route[0] < Count(v)
        && ValueChain(w, path + [route[0]], elem, subs, Item(v, route[0]), route[1..])
  }

  /** The same for an object: the route goes on through a field of non-null type. */
  ghost predicate ObjectChain(w: World, path: Path, o: ObjType, sels: seq<Sel>, id: nat, route: Path)
    decreases |route|, 0
  {
    && |route| > 0 && route[0] < |sels|
    && SpecNonNull(o, sels[route[0]].name)
    && FieldChain(w, path + [route[0]], o, sels[route[0]], id, route[1..])
  }

  predicate SpecNonNull(o: ObjType, n: FieldName) {
    SpecType(o, n).Some? && SpecType(o, n).value.NonNull?
  }

  /** By the specification the field is null. */
  ghost predicate FieldSpecNull(w: World, path: Path, o: ObjType, sel: Sel, id: nat) {
    exists route :: FieldChain(w, path, o, sel, id, route)
  }

  ghost predicate ObjectSpecNull(w: World, path: Path, o: ObjType, sels: seq<Sel>, id: nat) {
    exists route :: ObjectChain(w, path, o, sels, id, route)
  }

  // ----- where the code departs: nil slices -----

  /** The route ends at a nil slice whose type is a non-null list. */
  ghost predicate FieldNilSlice(w: World, path: Path, o: ObjType, sel: Sel, id: nat, route: Path)
    decreases |route|, 2
  {
    SpecType(o, sel.name).Some? &&
    match Outcome(w, path, o, sel, id)
    case None => false
    case Some(v) => ValueNilSlice(w, path, SpecType(o, sel.name).value, sel.subs, v, route)
  }

  ghost predicate ValueNilSlice(w: World, path: Path, t: TypeRef, subs: seq<Sel>, v: Value, route: Path)
    decreases |route|, 1, t
  {
    match t
    case NonNull(of) => (of.ListOf? && v.NilValue? && route == []) || ValueNilSlice(w, path, of, subs, v, route)
    case Leaf => false
    case Named(o) => v.Ref? && ObjectNilSlice(w, path, o, subs, v.id, route)
    case ListOf(elem) =>
      && |route| > 0 && route[0] < Count(v)
      && ValueNilSlice(w, path + [route[0]], elem, subs, Item(v, route[0]), route[1..])
  }

  ghost predicate ObjectNilSlice(w: World, path: Path, o: ObjType, sels: seq<Sel>, id: nat, route: Path)
    decreases |route|, 0
  {
    && |route| > 0 && route[0] < |sels|
    && FieldNilSlice(w, path + [route[0]], o, sels[route[0]], id, route[1..])
  }

  /** Some route leads to a null other than such a slice. */
  ghost predicate FieldNulled(w: World, path: Path, o: ObjType, sel: Sel, id: nat) {
    exists route :: FieldChain(w, path, o, sel, id, route) && !FieldNilSlice(w, path, o, sel, id, route)
  }

  ghost predicate OnlyNilSlices(w: World, path: Path, o: ObjType, sel: Sel, id: nat) {
    forall route :: FieldChain(w, path, o, sel, id, route) ==> FieldNilSlice(w, path, o, sel, id, route)
  }

  ghost predicate ObjectNulled(w: World, path: Path, o: ObjType, sels: seq<Sel>, id: nat) {
    exists route :: ObjectChain(w, path, o, sels, id, route) && !ObjectNilSlice(w, path, o, sels, id, route)
  }

  ghost predicate ValueNulled(w: World, path: Path, t: TypeRef, subs: seq<Sel>, v: Value) {
    exists route :: ValueChain(w, path, t, subs, v, route) && !ValueNilSlice(w, path, t, subs, v, route)
  }

  // ----- the types of the specification and of the code -----

  predicate NonNullField(o: ObjType, n: FieldName) {
    EngineType(o, n).Some? && EngineType(o, n).value.NonNull?
  }

  lemma SpecIsEngine(o: ObjType, n: FieldName)
    ensures SpecType(o, n) == EngineType(o, n)
         || (o == QueryObject && n.MetaSchema? && SpecType(o, n) == Some(NonNull(EngineType(o, n).value))
             && EngineType(o, n) == Some(Named(SchemaObject)))
    ensures o != QueryObject ==> (SpecNonNull(o, n) <==> NonNullField(o, n))
    ensures o == QueryObject ==> (SpecNonNull(o, n) <==> n.MetaSchema?)
  {}

  /** A field's value is completed alike by the type of the schema and by that of its marshaller. */
  lemma FieldByMarshaller(w: World, path: Path, o: ObjType, n: FieldName, subs: seq<Sel>, v: Value, route: Path)
    requires SpecType(o, n).Some?
    ensures var s, t := SpecType(o, n).value, TypeOfMarshaller(MarshallerOf(o, n));
            && (FitsType(s, v) <==> FitsType(t, v))
            && (ValueChain(w, path, s, subs, v, route) <==> ValueChain(w, path, t, subs, v, route))
            && (ValueNilSlice(w, path, s, subs, v, route) <==> ValueNilSlice(w, path, t, subs, v, route))
  {
    TablesAgree(o, n);
    SpecIsEngine(o, n);
  }

  /** No field yields the root object. */
  predicate BelowRoot(m: Marshaller) {
    match m
    case NPtr(o) => o != QueryObject
    case OPtr(o) => o != QueryObject
    case NList(elem) => elem != ObjectElem(QueryObject)
    case OList(elem) => elem != ObjectElem(QueryObject)
    case _ => true
  }

  lemma FieldsBelowRoot(o: ObjType, n: FieldName)
    ensures BelowRoot(MarshallerOf(o, n))
  {}

  /** The leaf fields whose Go type has no nil: the non-null ones, and `isOneOf`. */
  predicate NoNilLeaf(o: ObjType, n: FieldName) {
    EngineType(o, n) == Some(NonNull(Leaf)) || (o == TypeObject && n.IsOneOf?)
  }

  /** What a resolver may answer for the field. */
  predicate Admits(o: ObjType, n: FieldName, v: Value) {
    && EngineType(o, n).Some? && FitsType(EngineType(o, n).value, v)
    && (v.NilValue? ==> !NoNilLeaf(o, n))
  }

  lemma LeafMarshallers(o: ObjType, n: FieldName)
    requires EngineType(o, n).Some?
    ensures MarshallerOf(o, n).NLeaf? || MarshallerOf(o, n).OLeaf? <==> NoNilLeaf(o, n)
  {
    match o
    case QueryObject =>
    case DirectiveObject =>
    case EnumValueObject =>
    case FieldObject =>
    case InputValueObject =>
    case SchemaObject =>
    case TypeObject =>
  }

  lemma AdmitsIsFits(o: ObjType, n: FieldName, v: Value)
    requires EngineType(o, n).Some?
    ensures Admits(o, n, v) <==> Fits(MarshallerOf(o, n), v)
  {
    MarshallersAgree(o, n);
    LeafMarshallers(o, n);
    FitsByType(MarshallerOf(o, n), v);
  }

  // ----- from a Null to a route -----

  lemma ListFits(elem: Elem, v: Value)
    ensures FitsType(ListOf(ElemType(elem)), v) <==> Fits(NList(elem), v)
  {
    match elem
    case LeafElem => assert BaseObject(Leaf).None?;
    case ObjectElem(o) => assert BaseObject(Named(o)).Some?;
  }

  /** What a type admits and its marshaller does not: nil for a leaf that is not a pointer. */
  lemma FitsByType(m: Marshaller, v: Value)
    ensures FitsType(TypeOfMarshaller(m), v) <==> Fits(m, v) || (v.NilValue? && (m.NLeaf? || m.OLeaf?))
  {
    match m
    case NLeaf => assert FitsType(NonNull(Leaf), v) <==> FitsType(Leaf, v);
    case OLeaf =>
    case OLeafPtr =>
    case NPtr(o) => assert FitsType(NonNull(Named(o)), v) <==> FitsType(Named(o), v);
    case OPtr(_) =>
    case NList(elem) =>
      ListFits(elem, v);
      assert FitsType(NonNull(ListOf(ElemType(elem))), v) <==> FitsType(ListOf(ElemType(elem)), v);
    case OList(elem) => ListFits(elem, v);
  }

  lemma InvalidIsNonNull(o: ObjType, sel: Sel, out: Out)
    ensures Invalid(o, sel, out) <==> NonNullField(o, sel.name) && out == Null
  {
    TablesAgree(o, sel.name);
  }

  lemma SlotIsField(w: World, path: Path, o: ObjType, sels: seq<Sel>, id: nat, i: nat)
    requires i < |sels| && SpecType(o, sels[i].name).Some?
    ensures SlotRun(w, path, o, sels, id, i) == FieldRun(w, path + [i], o, sels[i], id)
  {
    TablesAgree(o, sels[i].name);
  }

  lemma {:induction false} ObjectRoute(w: World, path: Path, o: ObjType, sels: seq<Sel>, id: nat) returns (route: Path)
    requires o != QueryObject
    requires ObjectRun(w, path, o, sels, id).Done? && ObjectRun(w, path, o, sels, id).out == Null
    ensures ObjectChain(w, path, o, sels, id, route) && !ObjectNilSlice(w, path, o, sels, id, route)
    decreases sels, 0
  {
    var runs := ObjectAt(w, path, o, sels, id);
    var i := InvalidSlot(o, sels, runs);
    SpecIsEngine(o, sels[i].name);
    SlotIsField(w, path, o, sels, id, i);
    var rest := FieldRoute(w, path + [i], o, sels[i], id);
    route := SlotRoute(w, path, o, sels, id, i, rest);
  }

  lemma InvalidSlot(o: ObjType, sels: seq<Sel>, runs: seq<Run>) returns (i: nat)
    requires |runs| == |sels|
    requires BuildObject(o, sels, Gather(runs)).Done? && BuildObject(o, sels, Gather(runs)).out == Null
    ensures i < |sels| && NonNullField(o, sels[i].name) && runs[i].Done? && runs[i].out == Null
  {
    ObjectOf(o, sels, runs);
    i :| 0 <= i < |runs| && Invalid(o, sels[i], runs[i].out);
    InvalidIsNonNull(o, sels[i], runs[i].out);
  }

  /** A route from a field of non-null type is a route from the object through it. */
  lemma SlotRoute(w: World, path: Path, o: ObjType, sels: seq<Sel>, id: nat, i: nat, rest: Path) returns (route: Path)
    requires i < |sels| && SpecNonNull(o, sels[i].name) && FieldChain(w, path + [i], o, sels[i], id, rest)
    ensures ObjectChain(w, path, o, sels, id, route)
    ensures ObjectNilSlice(w, path, o, sels, id, route) <==> FieldNilSlice(w, path + [i], o, sels[i], id, rest)
  {
    route := [i] + rest;
    assert route[1..] == rest;
  }

  lemma {:induction false} FieldRoute(w: World, path: Path, o: ObjType, sel: Sel, id: nat) returns (route: Path)
    requires SpecType(o, sel.name).Some?
    requires FieldRun(w, path, o, sel, id).Done? && FieldRun(w, path, o, sel, id).out == Null
    ensures FieldChain(w, path, o, sel, id, route) && !FieldNilSlice(w, path, o, sel, id, route)
    decreases sel, 1
  {
    var m := MarshallerOf(o, sel.name);
    match Outcome(w, path, o, sel, id)
    case None => route := [];
    case Some(v) =>
      FieldByMarshaller(w, path, o, sel.name, sel.subs, v, []);
      FitsByType(m, v);
      if Fits(m, v) {
        FieldsBelowRoot(o, sel.name);
        route := CompleteRoute(w, path, m, sel.subs, v, Resolve(w, path, o, sel.name, id).reported);
        FieldByMarshaller(w, path, o, sel.name, sel.subs, v, route);
      } else {
        route := [];
        NilLeaf(w, path, m, sel.subs, v);
      }
  }

  lemma NilLeaf(w: World, path: Path, m: Marshaller, subs: seq<Sel>, v: Value)
    requires v.NilValue? && (m.NLeaf? || m.OLeaf?)
    ensures ValueChain(w, path, TypeOfMarshaller(m), subs, v, [])
    ensures !ValueNilSlice(w, path, TypeOfMarshaller(m), subs, v, [])
  {
    assert ValueChain(w, path, Leaf, subs, v, []);
    assert !ValueNilSlice(w, path, Leaf, subs, v, []);
  }

  lemma {:induction false} CompleteRoute(w: World, path: Path, m: Marshaller, subs: seq<Sel>, v: Value, noted: bool)
    returns (route: Path)
    requires Fits(m, v) && BelowRoot(m)
    requires Complete(w, path, m, subs, v, noted).Done? && Complete(w, path, m, subs, v, noted).out == Null
    ensures ValueChain(w, path, TypeOfMarshaller(m), subs, v, route)
    ensures !ValueNilSlice(w, path, TypeOfMarshaller(m), subs, v, route)
    decreases subs, 2
  {
    route := [];
    match m
    case NPtr(o) =>
      if !v.NilValue? { route := ObjectRoute(w, path, o, subs, v.id); }
      assert !ValueNilSlice(w, path, Named(o), subs, v, route);
    case OPtr(o) => if !v.NilValue? { route := ObjectRoute(w, path, o, subs, v.id); }
    case NList(elem) => route := ListRoute(w, path, elem, subs, v);
    case OList(elem) => if !v.NilValue? { route := ListRoute(w, path, elem, subs, v); }
    case NLeaf => assert !ValueNilSlice(w, path, Leaf, subs, v, route);
    case _ =>
  }

  lemma {:induction false} ListRoute(w: World, path: Path, elem: Elem, subs: seq<Sel>, v: Value) returns (route: Path)
    requires Fits(NList(elem), v) && BelowRoot(NList(elem))
    requires ListRun(w, path, elem, subs, v).Done? && ListRun(w, path, elem, subs, v).out == Null
    ensures !v.NilValue? && ValueChain(w, path, ListOf(ElemType(elem)), subs, v, route)
    ensures !ValueNilSlice(w, path, ListOf(ElemType(elem)), subs, v, route)
    decreases subs, 1
  {
    var runs := ListAt(w, path, elem, subs, v);
    ArrayOf(runs);
    var i :| 0 <= i < |runs| && runs[i].out == Null;
    match elem
    case LeafElem =>
      NullElement(w, path + [i], elem, subs, Item(v, i), []);
      route := ElementRoute(w, path, elem, subs, v, i, []);
    case ObjectElem(o) =>
      var rest := ObjectRoute(w, path + [i], o, subs, v.ids[i]);
      NullElement(w, path + [i], elem, subs, Item(v, i), rest);
      route := ElementRoute(w, path, elem, subs, v, i, rest);
  }

  /** A list element that is null by itself, or an object that is. */
  lemma NullElement(w: World, path: Path, elem: Elem, subs: seq<Sel>, v: Value, rest: Path)
    requires match elem
             case LeafElem => v.LeafValue? && v.text.None? && rest == []
             case ObjectElem(o) =>
               v.Ref? && ObjectChain(w, path, o, subs, v.id, rest) && !ObjectNilSlice(w, path, o, subs, v.id, rest)
    ensures ValueChain(w, path, ElemType(elem), subs, v, rest)
    ensures !ValueNilSlice(w, path, ElemType(elem), subs, v, rest)
  {
    var t := if elem.LeafElem? then Leaf else Named(elem.o);
    assert ValueChain(w, path, t, subs, v, rest) && !ValueNilSlice(w, path, t, subs, v, rest);
  }

  /** A route from an element is a route from the list through it. */
  lemma ElementRoute(w: World, path: Path, elem: Elem, subs: seq<Sel>, v: Value, i: nat, rest: Path)
    returns (route: Path)
    requires Fits(NList(elem), v) && i < Count(v)
    requires ValueChain(w, path + [i], ElemType(elem), subs, Item(v, i), rest)
    requires !ValueNilSlice(w, path + [i], ElemType(elem), subs, Item(v, i), rest)
    ensures ValueChain(w, path, ListOf(ElemType(elem)), subs, v, route)
    ensures !ValueNilSlice(w, path, ListOf(ElemType(elem)), subs, v, route)
  {
    route := [i] + rest;
    assert route[1..] == rest;
  }

  // ----- from a route to a Null -----

  lemma {:induction false} ObjectRouteNulls(w: World, path: Path, o: ObjType, sels: seq<Sel>, id: nat, route: Path)
    requires o != QueryObject && ObjectRun(w, path, o, sels, id).Done?
    requires ObjectChain(w, path, o, sels, id, route) && !ObjectNilSlice(w, path, o, sels, id, route)
    ensures ObjectRun(w, path, o, sels, id).out == Null
    decreases |route|, 0
  {
    var runs := ObjectAt(w, path, o, sels, id);
    ObjectOf(o, sels, runs);
    var i := route[0];
    SpecIsEngine(o, sels[i].name);
    SlotIsField(w, path, o, sels, id, i);
    assert runs[i].Done?;
    FieldRouteNulls(w, path + [i], o, sels[i], id, route[1..]);
    InvalidIsNonNull(o, sels[i], runs[i].out);
  }

  lemma {:induction false} FieldRouteNulls(w: World, path: Path, o: ObjType, sel: Sel, id: nat, route: Path)
    requires FieldRun(w, path, o, sel, id).Done?
    requires FieldChain(w, path, o, sel, id, route) && !FieldNilSlice(w, path, o, sel, id, route)
    ensures FieldRun(w, path, o, sel, id).out == Null
    decreases |route|, 3
  {
    var m := MarshallerOf(o, sel.name);
    match Resolve(w, path, o, sel.name, id).result
    case Got(v) =>
      if Fits(m, v) {
        FieldByMarshaller(w, path, o, sel.name, sel.subs, v, route);
        FitsByType(m, v);
        FieldsBelowRoot(o, sel.name);
        if ProcessArgs(o, sel.name, sel.raw).Some? {
          CompleteRouteNulls(w, path, m, sel.subs, v, Resolve(w, path, o, sel.name, id).reported, route);
        }
      }
    case _ =>
  }

  lemma {:induction false} CompleteRouteNulls(w: World, path: Path, m: Marshaller, subs: seq<Sel>, v: Value,
                                              noted: bool, route: Path)
    requires Fits(m, v) && BelowRoot(m) && Complete(w, path, m, subs, v, noted).Done?
    requires ValueChain(w, path, TypeOfMarshaller(m), subs, v, route)
    requires !ValueNilSlice(w, path, TypeOfMarshaller(m), subs, v, route)
    ensures Complete(w, path, m, subs, v, noted).out == Null
    decreases |route|, 2
  {
    match m
    case NPtr(o) =>
      assert !ValueNilSlice(w, path, Named(o), subs, v, route);
      if !v.NilValue? { ObjectRouteNulls(w, path, o, subs, v.id, route); }
    case OPtr(o) => if !v.NilValue? { ObjectRouteNulls(w, path, o, subs, v.id, route); }
    case NList(elem) => ListRouteNulls(w, path, elem, subs, v, route);
    case OList(elem) => if !v.NilValue? { ListRouteNulls(w, path, elem, subs, v, route); }
    case _ =>
  }

  lemma {:induction false} ListRouteNulls(w: World, path: Path, elem: Elem, subs: seq<Sel>, v: Value, route: Path)
    requires Fits(NList(elem), v) && BelowRoot(NList(elem)) && ListRun(w, path, elem, subs, v).Done?
    requires !v.NilValue? && ValueChain(w, path, ListOf(ElemType(elem)), subs, v, route)
    requires !ValueNilSlice(w, path, ListOf(ElemType(elem)), subs, v, route)
    ensures ListRun(w, path, elem, subs, v).out == Null
    decreases |route|, 1
  {
    var runs := ListAt(w, path, elem, subs, v);
    ArrayOf(runs);
    var i := route[0];
    assert runs[i].Done?;
    assert ValueChain(w, path + [i], ElemType(elem), subs, Item(v, i), route[1..]);
    assert !ValueNilSlice(w, path + [i], ElemType(elem), subs, Item(v, i), route[1..]);
    if elem.ObjectElem? {
      assert ValueChain(w, path + [i], Named(elem.o), subs, Item(v, i), route[1..]);
      assert !ValueNilSlice(w, path + [i], Named(elem.o), subs, Item(v, i), route[1..]);
      ObjectRouteNulls(w, path + [i], elem.o, subs, v.ids[i], route[1..]);
    } else {
      assert ValueChain(w, path + [i], Leaf, subs, Item(v, i), route[1..]);
    }
    assert runs[i].out == Null;
  }

  // ----- exactness -----

  /** Propagation is exact for fields: the result is Null iff a route of non-null positions leads
      from the field to a failure or a nil other than a nil slice of non-null list type. */
  lemma FieldNullIffChain(w: World, path: Path, o: ObjType, sel: Sel, id: nat)
    requires SpecType(o, sel.name).Some? && FieldRun(w, path, o, sel, id).Done?
    ensures FieldRun(w, path, o, sel, id).out == Null <==> FieldNulled(w, path, o, sel, id)
  {
    if FieldRun(w, path, o, sel, id).out == Null {
      var route := FieldRoute(w, path, o, sel, id);
      assert FieldChain(w, path, o, sel, id, route);
    }
    if FieldNulled(w, path, o, sel, id) {
      var route :| FieldChain(w, path, o, sel, id, route) && !FieldNilSlice(w, path, o, sel, id, route);
      FieldRouteNulls(w, path, o, sel, id, route);
    }
  }

  /** And for objects; the root is never Null. */
  lemma ObjectNullIffChain(w: World, path: Path, o: ObjType, sels: seq<Sel>, id: nat)
    requires ObjectRun(w, path, o, sels, id).Done?
    ensures ObjectRun(w, path, o, sels, id).out == Null
       <==> o != QueryObject && ObjectNulled(w, path, o, sels, id)
  {
    if o == QueryObject {
      RootNeverNull(w, path, sels, id);
    } else {
      if ObjectRun(w, path, o, sels, id).out == Null {
        var route := ObjectRoute(w, path, o, sels, id);
        assert ObjectChain(w, path, o, sels, id, route);
      }
      if ObjectNulled(w, path, o, sels, id) {
        var route :| ObjectChain(w, path, o, sels, id, route) && !ObjectNilSlice(w, path, o, sels, id, route);
        ObjectRouteNulls(w, path, o, sels, id, route);
      }
    }
  }

  /** And for the values of lists and pointers that marshallers complete. */
  lemma CompleteNullIffChain(w: World, path: Path, m: Marshaller, subs: seq<Sel>, v: Value, noted: bool)
    requires Fits(m, v) && BelowRoot(m) && Complete(w, path, m, subs, v, noted).Done?
    ensures Complete(w, path, m, subs, v, noted).out == Null
       <==> ValueNulled(w, path, TypeOfMarshaller(m), subs, v)
  {
    var t := TypeOfMarshaller(m);
    if Complete(w, path, m, subs, v, noted).out == Null {
      var route := CompleteRoute(w, path, m, subs, v, noted);
      assert ValueChain(w, path, t, subs, v, route);
    }
    if ValueNulled(w, path, t, subs, v) {
      var route :| ValueChain(w, path, t, subs, v, route) && !ValueNilSlice(w, path, t, subs, v, route);
      CompleteRouteNulls(w, path, m, subs, v, noted, route);
    }
  }

  // ----- fields against the specification -----

  /** No resolver answers nil where the type is a non-null list. */
  ghost predicate AnswersLists(w: World) {
    forall path: Path, o, n, id {:trigger w.resolve(path, o, n, id)} ::
      MarshallerOf(o, n).NList? ==> w.resolve(path, o, n, id).result != Got(NilValue)
  }

  lemma {:induction false} NoFieldNilSlice(w: World, path: Path, o: ObjType, sel: Sel, id: nat, route: Path)
    requires AnswersLists(w)
    ensures !FieldNilSlice(w, path, o, sel, id, route)
    decreases |route|, 2
  {
    var m := MarshallerOf(o, sel.name);
    if SpecType(o, sel.name).Some? && Outcome(w, path, o, sel, id).Some? {
      var v := Outcome(w, path, o, sel, id).value;
      assert m.NList? ==> w.resolve(path, o, sel.name, id).result != Got(NilValue);
      FieldByMarshaller(w, path, o, sel.name, sel.subs, v, route);
      NoValueNilSlice(w, path, m, sel.subs, v, route);
    }
  }

  lemma {:induction false} NoValueNilSlice(w: World, path: Path, m: Marshaller, subs: seq<Sel>, v: Value, route: Path)
    requires AnswersLists(w) && (m.NList? ==> !v.NilValue?)
    ensures !ValueNilSlice(w, path, TypeOfMarshaller(m), subs, v, route)
    decreases |route|, 1
  {
    match m
    case NLeaf => assert !ValueNilSlice(w, path, Leaf, subs, v, route);
    case OLeaf =>
    case OLeafPtr =>
    case NPtr(o) => NoNamedNilSlice(w, path, o, subs, v, route);
    case OPtr(o) => NoNamedNilSlice(w, path, o, subs, v, route);
    case NList(elem) => NoListNilSlice(w, path, elem, subs, v, route);
    case OList(elem) => NoListNilSlice(w, path, elem, subs, v, route);
  }

  lemma {:induction false} NoNamedNilSlice(w: World, path: Path, o: ObjType, subs: seq<Sel>, v: Value, route: Path)
    requires AnswersLists(w)
    ensures !ValueNilSlice(w, path, Named(o), subs, v, route)
    decreases |route|, 0
  {
    if v.Ref? && |route| > 0 && route[0] < |subs| {
      NoFieldNilSlice(w, path + [route[0]], o, subs[route[0]], v.id, route[1..]);
    }
  }

  lemma {:induction false} NoListNilSlice(w: World, path: Path, elem: Elem, subs: seq<Sel>, v: Value, route: Path)
    requires AnswersLists(w)
    ensures !ValueNilSlice(w, path, ListOf(ElemType(elem)), subs, v, route)
    decreases |route|, 0
  {
    if |route| > 0 && route[0] < Count(v) {
      var i, rest, item := route[0], route[1..], Item(v, route[0]);
      if elem.ObjectElem? {
        NoNamedNilSlice(w, path + [i], elem.o, subs, item, rest);
      } else {
        assert !ValueNilSlice(w, path + [i], Leaf, subs, item, rest);
      }
      assert !ValueNilSlice(w, path + [i], ElemType(elem), subs, item, rest);
    }
  }

  /** Against the specification: what the code nulls the specification nulls; the code leaves out
      exactly the fields that only nil slices null; and there are none of these when no resolver
      answers nil where the type is a non-null list. */
  lemma FieldFollowsSpecification(w: World, path: Path, o: ObjType, sel: Sel, id: nat)
    requires SpecType(o, sel.name).Some? && FieldRun(w, path, o, sel, id).Done?
    ensures FieldRun(w, path, o, sel, id).out == Null ==> FieldSpecNull(w, path, o, sel, id)
    ensures FieldSpecNull(w, path, o, sel, id) && FieldRun(w, path, o, sel, id).out != Null
       <==> FieldSpecNull(w, path, o, sel, id) && OnlyNilSlices(w, path, o, sel, id)
    ensures AnswersLists(w) ==>
              (FieldRun(w, path, o, sel, id).out == Null <==> FieldSpecNull(w, path, o, sel, id))
  {
    FieldNullIffChain(w, path, o, sel, id);
    if AnswersLists(w) && FieldSpecNull(w, path, o, sel, id) {
      var route :| FieldChain(w, path, o, sel, id, route);
      NoFieldNilSlice(w, path, o, sel, id, route);
    }
  }

  /** The same for objects below the root. */
  lemma ObjectFollowsSpecification(w: World, path: Path, o: ObjType, sels: seq<Sel>, id: nat)
    requires o != QueryObject && ObjectRun(w, path, o, sels, id).Done?
    ensures ObjectRun(w, path, o, sels, id).out == Null ==> ObjectSpecNull(w, path, o, sels, id)
    ensures AnswersLists(w) ==>
              (ObjectRun(w, path, o, sels, id).out == Null <==> ObjectSpecNull(w, path, o, sels, id))
  {
    ObjectNullIffChain(w, path, o, sels, id);
    if AnswersLists(w) && ObjectSpecNull(w, path, o, sels, id) {
      var route :| ObjectChain(w, path, o, sels, id, route);
      NoFieldNilSlice(w, path + [route[0]], o, sels[route[0]], id, route[1..]);
      assert !ObjectNilSlice(w, path, o, sels, id, route);
    }
  }

  lemma {:induction false} NilList(w: World, path: Path, elem: Elem, subs: seq<Sel>)
    ensures ListRun(w, path, elem, subs, NilValue) == Done(Array([]), multiset{})
  {
    var runs := ListAt(w, path, elem, subs, NilValue);
    assert runs == [] && Gather([]) == Slots([], multiset{});
  }

  lemma {:induction false} NilListField(w: World, path: Path, o: ObjType, sel: Sel, id: nat)
    requires MarshallerOf(o, sel.name).NList? && FieldRun(w, path, o, sel, id).Done?
    requires !Uncoercible(o, sel.name, sel.raw)
    requires w.resolve(path, o, sel.name, id) == Resolution(false, Got(NilValue))
    ensures FieldRun(w, path, o, sel, id) == Done(Array([]), multiset{})
  {
    FieldIsDelivered(w, path, o, sel, id);
    NilList(w, path, MarshallerOf(o, sel.name).elem, sel.subs);
  }

  lemma {:induction false} NilListChain(w: World, path: Path, o: ObjType, sel: Sel, id: nat)
    requires SpecType(o, sel.name).Some? && MarshallerOf(o, sel.name).NList?
    requires !Uncoercible(o, sel.name, sel.raw)
    requires w.resolve(path, o, sel.name, id) == Resolution(false, Got(NilValue))
    ensures FieldChain(w, path, o, sel, id, [])
  {
    var m := MarshallerOf(o, sel.name);
    FieldByMarshaller(w, path, o, sel.name, sel.subs, NilValue, []);
    FitsByType(m, NilValue);
    assert ValueChain(w, path, ListOf(ElemType(m.elem)), sel.subs, NilValue, []);
  }

  /** A nil slice for any field of non-null list type makes them differ. */
  lemma {:induction false} NilListDeparts(w: World, o: ObjType, sel: Sel, id: nat)
    requires SpecType(o, sel.name).Some? && MarshallerOf(o, sel.name).NList?
    requires !Uncoercible(o, sel.name, sel.raw) && FieldRun(w, [0], o, sel, id).Done?
    requires w.resolve([0], o, sel.name, id) == Resolution(false, Got(NilValue))
    ensures ObjectRun(w, [], o, [sel], id) == Done(Object(o, [Array([])]), multiset{})
    ensures ObjectSpecNull(w, [], o, [sel], id)
  {
    TablesAgree(o, sel.name);
    SpecIsEngine(o, sel.name);
    NilListField(w, [0], o, sel, id);
    SingleField(w, o, sel, id, Array([]), multiset{});
    NilListChain(w, [0], o, sel, id);
    assert [] + [0] == [0];
    var route := SlotRoute(w, [], o, [sel], id, 0, []);
  }

  /** For instance the arguments of a field, whose type is `[__InputValue!]!`. */
  lemma NilSliceDeparts(w: World, id: nat)
    requires w.resolve([0], FieldObject, Args, id) == Resolution(false, Got(NilValue))
    ensures var sels := [Sel(Args, Missing, [])];
            && ObjectRun(w, [], FieldObject, sels, id) == Done(Object(FieldObject, [Array([])]), multiset{})
            && ObjectSpecNull(w, [], FieldObject, sels, id)
  {
    var sel := Sel(Args, Missing, []);
    NilList(w, [0], ObjectElem(InputValueObject), []);
    NilListDeparts(w, FieldObject, sel, id);
  }

  /** An object of one field. */
  lemma SingleField(w: World, o: ObjType, sel: Sel, id: nat, out: Out, errs: multiset<Path>)
    requires HasMethod(o, sel.name) && FieldRun(w, [0], o, sel, id) == Done(out, errs)
    requires out != Null || Switch(o, sel.name) == Optional
    ensures ObjectRun(w, [], o, [sel], id) == Done(Object(o, [out]), errs)
  {
    var runs := ObjectAt(w, [], o, [sel], id);
    assert [] + [0] == [0];
    assert runs[0] == SlotRun(w, [], o, [sel], id, 0) == FieldRun(w, [0], o, sel, id);
    assert runs == [Done(out, errs)];
    SingleSlot(o, sel, out, errs);
  }

  lemma {:induction false} GatherOne(out: Out, errs: multiset<Path>)
    ensures Gather([Done(out, errs)]) == Slots([out], errs)
  {
    var runs := [Done(out, errs)];
    assert runs[..|runs| - 1] == [];
    assert Gather([]) == Slots([], multiset{});
    assert [] + [out] == [out] && multiset{} + errs == errs;
  }

  lemma {:induction false} SingleSlot(o: ObjType, sel: Sel, out: Out, errs: multiset<Path>)
    requires out != Null || Switch(o, sel.name) == Optional
    ensures BuildObject(o, [sel], Gather([Done(out, errs)])) == Done(Object(o, [out]), errs)
  {
    GatherOne(out, errs);
    InvalidsAt(o, [sel], [out]);
    assert !Invalid(o, sel, out);
  }

  // ----- the root -----

  /** The root of a query is never Null, whatever fails below it. */
  lemma RootNeverNull(w: World, path: Path, sels: seq<Sel>, id: nat)
    requires ObjectRun(w, path, QueryObject, sels, id).Done?
    ensures ObjectRun(w, path, QueryObject, sels, id).out.Object?
  {
    var runs := ObjectAt(w, path, QueryObject, sels, id);
    ObjectOf(QueryObject, sels, runs);
    forall i | 0 <= i < |runs| ensures !Invalid(QueryObject, sels[i], runs[i].out) {
      InvalidIsNonNull(QueryObject, sels[i], runs[i].out);
    }
  }

  /** A `__schema` field of the selection that is null by the specification. */
  ghost predicate SchemaNull(w: World, path: Path, sels: seq<Sel>, id: nat, i: nat) {
    i < |sels| && sels[i].name.MetaSchema? && FieldSpecNull(w, path + [i], QueryObject, sels[i], id)
  }

  /** Where the code departs from the specification at the root: exactly when a selected `__schema`
      field is null by the specification. Without nil slices that is the field's own Null. */
  lemma RootFollowsSpecification(w: World, path: Path, sels: seq<Sel>, id: nat)
    requires ObjectRun(w, path, QueryObject, sels, id).Done?
    ensures var out := ObjectRun(w, path, QueryObject, sels, id).out;
            && ((out == Null <==> ObjectSpecNull(w, path, QueryObject, sels, id)) <==>
                !exists i :: SchemaNull(w, path, sels, id, i))
            && out.Object? && |out.slots| == |sels|
            && forall i :: 0 <= i < |sels| && sels[i].name.MetaSchema? ==>
                 && (out.slots[i] == Null <==> FieldNulled(w, path + [i], QueryObject, sels[i], id))
                 && (AnswersLists(w) ==> (out.slots[i] == Null <==> SchemaNull(w, path, sels, id, i)))
  {
    RootNeverNull(w, path, sels, id);
    if ObjectSpecNull(w, path, QueryObject, sels, id) {
      var route :| ObjectChain(w, path, QueryObject, sels, id, route);
      SpecIsEngine(QueryObject, sels[route[0]].name);
      assert FieldChain(w, path + [route[0]], QueryObject, sels[route[0]], id, route[1..]);
      assert SchemaNull(w, path, sels, id, route[0]);
    }
    if i: nat :| SchemaNull(w, path, sels, id, i) {
      var rest :| FieldChain(w, path + [i], QueryObject, sels[i], id, rest);
      var route := SlotRoute(w, path, QueryObject, sels, id, i, rest);
    }
    SchemaSlots(w, path, sels, id);
  }

  lemma SchemaSlots(w: World, path: Path, sels: seq<Sel>, id: nat)
    requires ObjectRun(w, path, QueryObject, sels, id).Done? && ObjectRun(w, path, QueryObject, sels, id).out.Object?
    ensures var out := ObjectRun(w, path, QueryObject, sels, id).out;
            |out.slots| == |sels|
            && forall i :: 0 <= i < |sels| && sels[i].name.MetaSchema? ==>
                 && (out.slots[i] == Null <==> FieldNulled(w, path + [i], QueryObject, sels[i], id))
                 && (AnswersLists(w) ==> (out.slots[i] == Null <==> SchemaNull(w, path, sels, id, i)))
  {
    var runs := ObjectAt(w, path, QueryObject, sels, id);
    ObjectOf(QueryObject, sels, runs);
    forall i | 0 <= i < |sels| && sels[i].name.MetaSchema?
      ensures runs[i].out == Null <==> FieldNulled(w, path + [i], QueryObject, sels[i], id)
      ensures AnswersLists(w) ==> (runs[i].out == Null <==> SchemaNull(w, path, sels, id, i))
    {
      assert runs[i].Done?;
      SchemaSlot(w, path, sels, id, i);
    }
  }

  lemma SchemaSlot(w: World, path: Path, sels: seq<Sel>, id: nat, i: nat)
    requires i < |sels| && sels[i].name.MetaSchema? && SlotRun(w, path, QueryObject, sels, id, i).Done?
    ensures SlotRun(w, path, QueryObject, sels, id, i).out == Null
       <==> FieldNulled(w, path + [i], QueryObject, sels[i], id)
    ensures AnswersLists(w) ==>
              (SlotRun(w, path, QueryObject, sels, id, i).out == Null <==> SchemaNull(w, path, sels, id, i))
  {
    SlotIsField(w, path, QueryObject, sels, id, i);
    FieldNullIffChain(w, path + [i], QueryObject, sels[i], id);
    FieldFollowsSpecification(w, path + [i], QueryObject, sels[i], id);
  }

  predicate SelectsSchema(sels: seq<Sel>) {
    exists i :: 0 <= i < |sels| && sels[i].name.MetaSchema?
  }

  /** Everything that the schema declares non-null is answered, and by no nil or empty leaf. */
  ghost predicate AnswersNonNull(w: World) {
    forall path: Path, o, n, id {:trigger w.resolve(path, o, n, id)} ::
      SpecNonNull(o, n) ==> Whole(SpecType(o, n).value, w.resolve(path, o, n, id).result)
  }

  predicate Whole(t: TypeRef, r: Result) {
    r.Got? && FitsType(t, r.value) && match r.value
      case NilValue => false
      case LeafValue(text) => text.Some?
      case Ref(_) => true
      case LeafList(texts) => None !in texts
      case RefList(_) => true
  }

  /** All arguments can be coerced, at every depth. */
  predicate Coercible(sel: Sel) {
    sel.raw != Bad && forall i :: 0 <= i < |sel.subs| ==> Coercible(sel.subs[i])
  }

  lemma {:induction false} WholeHasNoChain(w: World, path: Path, o: ObjType, sel: Sel, id: nat, route: Path)
    requires AnswersNonNull(w) && SpecNonNull(o, sel.name) && Coercible(sel)
    requires o == QueryObject ==> !w.introspectionDisabled
    ensures !FieldChain(w, path, o, sel, id, route)
    decreases |route|, 1
  {
    var v := w.resolve(path, o, sel.name, id).result.value;
    FieldByMarshaller(w, path, o, sel.name, sel.subs, v, route);
    FieldsBelowRoot(o, sel.name);
    var m := MarshallerOf(o, sel.name);
    assert Whole(SpecType(o, sel.name).value, w.resolve(path, o, sel.name, id).result);
    match m
    case NPtr(c) => WholeObject(w, path, c, sel, v, route);
    case OPtr(c) => WholeObject(w, path, c, sel, v, route);
    case NList(elem) => WholeList(w, path, elem, sel, v, route);
    case NLeaf => assert !ValueChain(w, path, Leaf, sel.subs, v, route);
    case OLeaf =>
    case OLeafPtr =>
    case OList(elem) =>
  }

  lemma {:induction false} WholeObject(w: World, path: Path, c: ObjType, sel: Sel, v: Value, route: Path)
    requires AnswersNonNull(w) && Coercible(sel) && v.Ref? && c != QueryObject
    ensures !ValueChain(w, path, Named(c), sel.subs, v, route)
    decreases |route|, 0
  {
    if |route| > 0 && route[0] < |sel.subs| && SpecNonNull(c, sel.subs[route[0]].name) {
      WholeHasNoChain(w, path + [route[0]], c, sel.subs[route[0]], v.id, route[1..]);
    }
  }

  lemma {:induction false} WholeList(w: World, path: Path, elem: Elem, sel: Sel, v: Value, route: Path)
    requires AnswersNonNull(w) && Coercible(sel) && BelowRoot(NList(elem)) && Fits(NList(elem), v) && !v.NilValue?
    requires v.LeafList? ==> None !in v.texts
    ensures !ValueChain(w, path, ListOf(ElemType(elem)), sel.subs, v, route)
    decreases |route|, 0
  {
    if |route| > 0 && route[0] < Count(v) {
      var i, rest, item := route[0], route[1..], Item(v, route[0]);
      if elem.ObjectElem? {
        WholeObject(w, path + [i], elem.o, sel, item, rest);
      } else {
        assert !ValueChain(w, path + [i], Leaf, sel.subs, item, rest);
      }
      assert !ValueChain(w, path + [i], ElemType(elem), sel.subs, item, rest);
    }
  }

  /** What a caller can tell beforehand. Without `__schema` the root follows the specification;
      with it and with introspection disabled it departs; and when everything declared non-null is
      answered, that is the only way to depart. */
  lemma RootDepartsByRequest(w: World, path: Path, sels: seq<Sel>, id: nat)
    ensures !SelectsSchema(sels) ==> !ObjectSpecNull(w, path, QueryObject, sels, id)
    ensures SelectsSchema(sels) && w.introspectionDisabled ==> ObjectSpecNull(w, path, QueryObject, sels, id)
    ensures AnswersNonNull(w) && (forall i :: 0 <= i < |sels| ==> Coercible(sels[i])) ==>
              (ObjectSpecNull(w, path, QueryObject, sels, id) <==> SelectsSchema(sels) && w.introspectionDisabled)
  {
    if ObjectSpecNull(w, path, QueryObject, sels, id) {
      var route :| ObjectChain(w, path, QueryObject, sels, id, route);
      var i := route[0];
      SpecIsEngine(QueryObject, sels[i].name);
      if AnswersNonNull(w) && Coercible(sels[i]) && !w.introspectionDisabled {
        WholeHasNoChain(w, path + [i], QueryObject, sels[i], id, route[1..]);
      }
    }
    if SelectsSchema(sels) && w.introspectionDisabled {
      var i: nat :| i < |sels| && sels[i].name.MetaSchema?;
      assert FieldChain(w, path + [i], QueryObject, sels[i], id, []);
      var route := SlotRoute(w, path, QueryObject, sels, id, i, []);
    }
  }

  /** A query on which they differ: introspection is disabled and `__schema` is asked for. */
  lemma DisabledSchemaDeparts(w: World, subs: seq<Sel>, id: nat)
    requires w.introspectionDisabled
    ensures var sels := [Sel(MetaSchema, Missing, subs)];
            && ObjectRun(w, [], QueryObject, sels, id) == Done(Object(QueryObject, [Null]), multiset{[0]})
            && ObjectSpecNull(w, [], QueryObject, sels, id)
  {
    var sel := Sel(MetaSchema, Missing, subs);
    assert FieldRun(w, [0], QueryObject, sel, id) == Done(Null, multiset{[0]});
    SingleField(w, QueryObject, sel, id, Null, multiset{[0]});
    assert [sel][0].name.MetaSchema?;
    RootDepartsByRequest(w, [], [sel], id);
  }
}
