/** Type soundness: selections that the Child tables accept never reach a panic, neither at an
    unknown field nor at the type assertion on an argument; and which others are safe. */
module TypeSoundness {
  import opened Options
  import opened IntrospectionTables
  import opened Execution

  /** Every step is `__typename` or accepted by the Child table of the field above it. */
  predicate Accepted(o: ObjType, n: FieldName, sels: seq<Sel>)
    decreases sels
  {
    |sels| > 0 ==>
      && (sels[0].name == Typename
          || match Child(o, n, sels[0].name)
             case None => false
             case Some((b, m)) => Accepted(b, m, sels[0].subs))
      && Accepted(o, n, sels[1..])
  }

  predicate AcceptedRoot(sels: seq<Sel>) {
    |sels| > 0 ==>
      && (sels[0].name == Typename
          || ((sels[0].name == MetaSchema || sels[0].name == MetaType)
              && Accepted(QueryObject, sels[0].name, sels[0].subs)))
      && AcceptedRoot(sels[1..])
  }

  /** Each selection names a field of the object type, and its own selections are accepted. */
  predicate Known(b: ObjType, sels: seq<Sel>) {
    forall i :: 0 <= i < |sels| ==> KnownField(b, sels[i])
  }

  predicate KnownField(b: ObjType, sel: Sel) {
    sel.name == Typename || (EngineType(b, sel.name).Some? && Accepted(b, sel.name, sel.subs))
  }

  /** The selections under a field, seen from the object type that its marshaller yields. */
  predicate KnownUnder(t: TypeRef, sels: seq<Sel>) {
    match BaseObject(t)
    case None => forall i :: 0 <= i < |sels| ==> sels[i].name == Typename
    case Some(b) => Known(b, sels)
  }

  lemma {:induction false} AcceptedIsKnown(o: ObjType, n: FieldName, sels: seq<Sel>)
    requires EngineType(o, n).Some?
    ensures Accepted(o, n, sels) <==> KnownUnder(EngineType(o, n).value, sels)
    decreases |sels|
  {
    if |sels| > 0 {
      ChildrenAgree(o, n, sels[0].name);
      AcceptedIsKnown(o, n, sels[1..]);
      assert sels == [sels[0]] + sels[1..];
    }
  }

  lemma {:induction false} RootIsKnown(sels: seq<Sel>)
    ensures AcceptedRoot(sels) <==> Known(QueryObject, sels)
  {
    if |sels| > 0 {
      RootIsKnown(sels[1..]);
      assert sels == [sels[0]] + sels[1..];
      assert EngineType(QueryObject, sels[0].name).Some? <==> sels[0].name == MetaSchema || sels[0].name == MetaType;
    }
  }

  // ----- runnable selections do not panic -----

  /** What execution needs of the selections that it reaches: each names a field of the object type.
      It does not go below a leaf, nor below a field whose argument cannot be coerced. */
  predicate Runnable(b: ObjType, sels: seq<Sel>)
    decreases sels, 0
  {
    forall i :: 0 <= i < |sels| ==> RunnableField(b, sels[i])
  }

  predicate RunnableField(b: ObjType, sel: Sel)
    decreases sel, 0
  {
    sel.name == Typename
    || (EngineType(b, sel.name).Some?
        && (Uncoercible(b, sel.name, sel.raw) || RunnableUnder(EngineType(b, sel.name).value, sel.subs)))
  }

  predicate RunnableUnder(t: TypeRef, sels: seq<Sel>)
    decreases sels, 1
  {
    BaseObject(t).None? || Runnable(BaseObject(t).value, sels)
  }

  lemma {:induction false} ObjectSound(w: World, path: Path, b: ObjType, sels: seq<Sel>, id: nat)
    requires Runnable(b, sels)
    ensures ObjectRun(w, path, b, sels, id).Done?
    decreases sels, 1
  {
    var runs := ObjectAt(w, path, b, sels, id);
    ObjectOf(b, sels, runs);
    forall i | 0 <= i < |sels| ensures runs[i].Done? {
      assert RunnableField(b, sels[i]);
      SlotSound(w, path, b, sels, id, i);
    }
  }

  lemma {:induction false} SlotSound(w: World, path: Path, b: ObjType, sels: seq<Sel>, id: nat, i: nat)
    requires i < |sels| && RunnableField(b, sels[i])
    ensures SlotRun(w, path, b, sels, id, i).Done?
    decreases sels, 0
  {
    TablesAgree(b, sels[i].name);
    if sels[i].name != Typename {
      FieldSound(w, path + [i], b, sels[i], id);
    }
  }

  /** Arguments that were processed have the types that the resolvers assert. */
  lemma ArgumentsSound(o: ObjType, n: FieldName, raw: RawArg)
    ensures match ProcessArgs(o, n, raw) case None => true case Some(args) => AssertionsHold(o, n, args)
  {
    ArgumentsAgree(o, n, raw);
  }

  lemma {:induction false} FieldSound(w: World, path: Path, o: ObjType, sel: Sel, id: nat)
    requires EngineType(o, sel.name).Some? && RunnableField(o, sel)
    ensures FieldRun(w, path, o, sel, id).Done?
    decreases sel, 3
  {
    TablesAgree(o, sel.name);
    ArgumentsAgree(o, sel.name, sel.raw);
    ArgumentsSound(o, sel.name, sel.raw);
    var m, r := MarshallerOf(o, sel.name), Resolve(w, path, o, sel.name, id);
    if ProcessArgs(o, sel.name, sel.raw).Some? && r.result.Got? && Fits(m, r.result.value) {
      CompleteSound(w, path, m, sel.subs, r.result.value, r.reported);
    }
  }

  lemma {:induction false} CompleteSound(w: World, path: Path, m: Marshaller, subs: seq<Sel>, v: Value, noted: bool)
    requires Fits(m, v) && RunnableUnder(TypeOfMarshaller(m), subs)
    ensures Complete(w, path, m, subs, v, noted).Done?
    decreases subs, 3
  {
    match m
    case NPtr(o) =>
      assert BaseObject(Named(o)) == Some(o);
      if !v.NilValue? { ObjectSound(w, path, o, subs, v.id); }
    case OPtr(o) => if !v.NilValue? { ObjectSound(w, path, o, subs, v.id); }
    case NList(elem) =>
      assert BaseObject(TypeOfMarshaller(m)) == BaseObject(ListOf(ElemType(elem)));
      ListSound(w, path, elem, subs, v);
    case OList(elem) => if !v.NilValue? { ListSound(w, path, elem, subs, v); }
    case _ =>
  }

  lemma {:induction false} ListSound(w: World, path: Path, elem: Elem, subs: seq<Sel>, v: Value)
    requires Fits(NList(elem), v) && RunnableUnder(ListOf(ElemType(elem)), subs)
    ensures ListRun(w, path, elem, subs, v).Done?
    decreases subs, 2
  {
    var runs := ListAt(w, path, elem, subs, v);
    ArrayOf(runs);
    forall i | 0 <= i < |runs| ensures runs[i].Done? {
      if elem.ObjectElem? {
        assert BaseObject(ElemType(elem)) == BaseObject(Named(elem.o));
        ObjectSound(w, path + [i], elem.o, subs, v.ids[i]);
      }
    }
  }

  /** Soundness: a query that the tables accept runs without a panic in every world. */
  lemma TypeSound(w: World, path: Path, sels: seq<Sel>, id: nat)
    requires AcceptedRoot(sels)
    ensures ObjectRun(w, path, QueryObject, sels, id).Done?
  {
    RootIsKnown(sels);
    KnownIsRunnable(QueryObject, sels);
    ObjectSound(w, path, QueryObject, sels, id);
  }

  // ----- and no others -----

  /** A value that makes its marshaller run the sub-selections. */
  function Canonical(m: Marshaller): (v: Value)
    ensures Fits(m, v)
  {
    match m
    case NLeaf => LeafValue(Some(""))
    case OLeaf => LeafValue(Some(""))
    case OLeafPtr => LeafValue(Some(""))
    case NPtr(_) => Ref(0)
    case OPtr(_) => Ref(0)
    case NList(elem) => if elem.LeafElem? then LeafList([]) else RefList([0])
    case OList(elem) => if elem.LeafElem? then LeafList([]) else RefList([0])
  }

  const FULL_WORLD := World((path: Path, o: ObjType, n: FieldName, id: nat) =>
      Resolution(false, Got(Canonical(MarshallerOf(o, n)))), false)

  lemma {:induction false} SafeIsRunnable(path: Path, b: ObjType, sels: seq<Sel>, id: nat)
    requires ObjectRun(FULL_WORLD, path, b, sels, id).Done?
    ensures Runnable(b, sels)
    decreases sels, 1
  {
    var runs := ObjectAt(FULL_WORLD, path, b, sels, id);
    ObjectOf(b, sels, runs);
    forall i | 0 <= i < |sels| ensures RunnableField(b, sels[i]) {
      assert runs[i].Done?;
      SafeSlotIsRunnable(path, b, sels, id, i);
    }
  }

  lemma {:induction false} SafeSlotIsRunnable(path: Path, b: ObjType, sels: seq<Sel>, id: nat, i: nat)
    requires i < |sels| && SlotRun(FULL_WORLD, path, b, sels, id, i).Done?
    ensures RunnableField(b, sels[i])
    decreases sels, 0
  {
    TablesAgree(b, sels[i].name);
    ArgumentsAgree(b, sels[i].name, sels[i].raw);
    if sels[i].name != Typename && !Uncoercible(b, sels[i].name, sels[i].raw) {
      SafeFieldIsRunnable(path + [i], b, sels[i], id);
    }
  }

  lemma {:induction false} SafeFieldIsRunnable(path: Path, b: ObjType, sel: Sel, id: nat)
    requires EngineType(b, sel.name).Some? && !Uncoercible(b, sel.name, sel.raw)
    requires FieldRun(FULL_WORLD, path, b, sel, id).Done?
    ensures RunnableUnder(EngineType(b, sel.name).value, sel.subs)
    decreases sel, 3
  {
    TablesAgree(b, sel.name);
    ArgumentsAgree(b, sel.name, sel.raw);
    var m := MarshallerOf(b, sel.name);
    var c := BaseObject(EngineType(b, sel.name).value);
    if c.Some? {
      CanonicalReaches(path, m, sel.subs);
      SafeIsRunnable(if m.NPtr? || m.OPtr? then path else path + [0], c.value, sel.subs, 0);
    }
  }

  /** Completing the canonical value runs the object marshaller on the sub-selections. */
  lemma CanonicalReaches(path: Path, m: Marshaller, subs: seq<Sel>)
    requires BaseObject(TypeOfMarshaller(m)).Some?
    requires Complete(FULL_WORLD, path, m, subs, Canonical(m), false).Done?
    ensures ObjectRun(FULL_WORLD, if m.NPtr? || m.OPtr? then path else path + [0],
                      BaseObject(TypeOfMarshaller(m)).value, subs, 0).Done?
  {
    match m
    case NPtr(o) => assert BaseObject(Named(o)) == Some(o);
    case OPtr(o) =>
    case NList(elem) => CanonicalElement(path, elem, subs);
    case OList(elem) => CanonicalElement(path, elem, subs);
  }

  lemma CanonicalElement(path: Path, elem: Elem, subs: seq<Sel>)
    ensures BaseObject(NonNull(ListOf(ElemType(elem)))) == BaseObject(ListOf(ElemType(elem)))
         == (if elem.LeafElem? then None else Some(elem.o))
    ensures elem.ObjectElem? && ListRun(FULL_WORLD, path, elem, subs, RefList([0])).Done? ==>
              ObjectRun(FULL_WORLD, path + [0], elem.o, subs, 0).Done?
  {
    assert BaseObject(ElemType(elem)) == if elem.LeafElem? then BaseObject(Leaf) else BaseObject(Named(elem.o));
    if elem.ObjectElem? {
      var runs := ListAt(FULL_WORLD, path, elem, subs, RefList([0]));
      ArrayOf(runs);
      assert runs[0] == ElemRun(FULL_WORLD, path, elem, subs, RefList([0]), 0);
    }
  }

  ghost predicate Safe(sels: seq<Sel>) {
    forall w: World, path: Path, id: nat :: ObjectRun(w, path, QueryObject, sels, id).Done?
  }

  /** Which queries are safe in every world, whatever their arguments and selections. */
  lemma SafeIffRunnable(sels: seq<Sel>)
    ensures Safe(sels) <==> Runnable(QueryObject, sels)
  {
    if Runnable(QueryObject, sels) {
      forall w: World, path: Path, id: nat ensures ObjectRun(w, path, QueryObject, sels, id).Done? {
        ObjectSound(w, path, QueryObject, sels, id);
      }
    }
    if Safe(sels) {
      assert ObjectRun(FULL_WORLD, [], QueryObject, sels, 0).Done?;
      SafeIsRunnable([], QueryObject, sels, 0);
    }
  }

  // ----- what the tables accept -----

  /** Nothing is selected that execution does not reach: arguments can be coerced, and leaf fields
      have no selections of their own but `__typename`. */
  predicate Reached(b: ObjType, sels: seq<Sel>)
    decreases sels
  {
    forall i :: 0 <= i < |sels| ==> ReachedField(b, sels[i])
  }

  predicate ReachedField(b: ObjType, sel: Sel)
    decreases sel
  {
    EngineType(b, sel.name).Some? ==>
      && !Uncoercible(b, sel.name, sel.raw)
      && match BaseObject(EngineType(b, sel.name).value)
         case None => forall i :: 0 <= i < |sel.subs| ==> sel.subs[i].name == Typename
         case Some(c) => Reached(c, sel.subs)
  }

  lemma {:induction false} KnownIsRunnable(b: ObjType, sels: seq<Sel>)
    ensures Known(b, sels) ==> Runnable(b, sels)
    ensures Reached(b, sels) && Runnable(b, sels) ==> Known(b, sels)
    decreases sels
  {
    forall i | 0 <= i < |sels|
      ensures KnownField(b, sels[i]) ==> RunnableField(b, sels[i])
      ensures ReachedField(b, sels[i]) && RunnableField(b, sels[i]) ==> KnownField(b, sels[i])
    {
      var sel := sels[i];
      if EngineType(b, sel.name).Some? {
        AcceptedIsKnown(b, sel.name, sel.subs);
        var c := BaseObject(EngineType(b, sel.name).value);
        if c.Some? {
          KnownIsRunnable(c.value, sel.subs);
          if ReachedField(b, sel) && RunnableField(b, sel) && sel.name != Typename {
            assert RunnableUnder(EngineType(b, sel.name).value, sel.subs);
            assert Reached(c.value, sel.subs) && Runnable(c.value, sel.subs);
          }
        }
      }
    }
  }

  /** The tables accept only safe queries, and of those in which nothing is out of reach, all. */
  lemma AcceptedIffSafe(sels: seq<Sel>)
    ensures AcceptedRoot(sels) ==> Safe(sels)
    ensures Reached(QueryObject, sels) ==> (AcceptedRoot(sels) <==> Safe(sels))
  {
    RootIsKnown(sels);
    KnownIsRunnable(QueryObject, sels);
    SafeIffRunnable(sels);
  }
}
